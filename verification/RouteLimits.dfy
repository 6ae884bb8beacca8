/** Concrete runs that leave a /32 behind whose handshake is too old, by a remove command that fails. */
module RouteLimits {
  import opened Basics
  import opened Candidates
  import opened PeerRegions
  import opened AgentMachine
  import opened AgentInvariants
  import opened StalenessTheorems
  import F = OfferLimits
  import L = AgentLimits

  const K: Key := "k"
  const E := "[2606:4700::5]:51820"
  const LIST := [Candidate(Host6, Udp6, E, 900, false)]
  const START := World(Store(map[], map[], 0), 1000.0, map[], 1000.0)
  const OK := Go(Wg(true, true, true), true)
  const FAILING := Go(Wg(false, true, true), false)

  /** The selection gives this list for a peer that advertises one usable global IPv6 address. */
  lemma ListIsSelected()
    ensures SelectFrom([Advertised(Some(Host6), Some(Address(E, true, false, true)), 900, false)], None, false, true) == LIST
  {
    var v := Advertised(Some(Host6), Some(Address(E, true, false, true)), 900, false);
    assert [v][1..] == [];
    assert Gather([v], false, true) == LIST && LIST + [] == LIST;
    F.OneIsChosen(LIST[0]);
  }

  function Offered(): Offer {
    Offer(Initiator, "s", 1, "", "10.0.0.3", LIST, 1180.0)
  }

  function State(mode: Mode, endpoint: string, running: bool): PeerState {
    PeerState(Initiator, "s", 1, "", "10.0.0.3", mode, endpoint, LIST, Signature(LIST), 0, 0.0, 3, running, false, 1180.0)
  }

  /** The world with the one key K and the worker of generation 3. */
  function One(c: Cell, clock: real, j: Job): World {
    World(Store(Set(map[], K, c.st), Set(map[], K, c.peer), c.gen), clock, map[3 := j], 1000.0)
  }

  function Pc(p: ProbePc, q: ConfirmPc): Job {
    Job(K, LIST, p, q)
  }

  // ---------------------------------------------------------------- runs from worlds and events

  predicate Leads(w: World, e: Event, w': World) {
    Enabled(w, e) && Next(w, e) == w'
  }

  predicate Chain(w: World, steps: seq<(Event, World)>)
    decreases |steps|
  {
    steps == [] || (Leads(w, steps[0].0, steps[0].1) && Chain(steps[0].1, steps[1..]))
  }

  function Events(steps: seq<(Event, World)>): seq<Event> {
    if steps == [] then [] else [steps[0].0] + Events(steps[1..])
  }

  lemma {:induction false} ChainRuns(w: World, steps: seq<(Event, World)>)
    requires Chain(w, steps)
    ensures Possible(w, Events(steps))
    ensures After(w, Events(steps)) == if steps == [] then w else steps[|steps| - 1].1
    decreases |steps|
  {
    if steps != [] {
      ChainRuns(steps[0].1, steps[1..]);
      L.Prepend(w, steps[0].0, Events(steps[1..]));
    }
  }

  lemma {:induction false} ChainJoin(w: World, a: seq<(Event, World)>, b: seq<(Event, World)>)
    requires Chain(w, a) && a != [] && Chain(a[|a| - 1].1, b)
    ensures Chain(w, a + b)
    decreases |a|
  {
    assert (a + b)[0] == a[0] && (a + b)[1..] == a[1..] + b;
    if |a| > 1 {
      ChainJoin(a[0].1, a[1..], b);
    } else {
      assert a[1..] + b == b;
    }
  }

  lemma ChainOne(w: World, e: Event, w': World)
    requires Leads(w, e, w')
    ensures Chain(w, [(e, w')])
  {
    var steps := [(e, w')];
    assert steps[1..] == [];
  }

  lemma AtOne(c: Cell, clock: real, j: Job)
    ensures At(One(c, clock, j).store, K) == c
  {
  }

  lemma PutOne(c: Cell, clock: real, j: Job, d: Cell, j': Job)
    requires j'.key == K
    ensures PutJob(One(c, clock, j), 3, JobResult(d, j')) == One(d, clock, j')
  {
    var w := PutJob(One(c, clock, j), 3, JobResult(d, j'));
    assert w.jobs == map[3 := j'];
    assert w.store.states == Set(map[], K, d.st) && w.store.table == Set(map[], K, d.peer);
  }

  lemma ProbeLeads(c: Cell, clock: real, j: Job, d: Cell, j': Job)
    requires ProbeStep(c, 3, j, OK, clock) == JobResult(d, j') && j.key == j'.key == K
    ensures Leads(One(c, clock, j), ProbeWork(3, OK), One(d, clock, j'))
  {
    AtOne(c, clock, j);
    PutOne(c, clock, j, d, j');
  }

  lemma RekeyLeads(c: Cell, clock: real, j: Job, act: Act, d: Cell, j': Job)
    requires ConfirmStep(c, 3, j, act, clock) == JobResult(d, j') && j.key == j'.key == K
    ensures Leads(One(c, clock, j), ConfirmWork(3, act), One(d, clock, j'))
  {
    AtOne(c, clock, j);
    PutOne(c, clock, j, d, j');
  }

  // ---------------------------------------------------------------- the promotion

  const AIMED := WgPeer(E, false, 0.0, false)
  const ANSWERED := WgPeer(E, false, 1001.0, false)
  const ROUTED := WgPeer(E, true, 1001.0, false)
  const BARE := Cell(Some(State(Probe, "", true)), None, 3)
  const AIM := Cell(Some(State(Probe, E, true)), Some(AIMED), 3)
  const HEARD := Cell(Some(State(Probe, E, true)), Some(ANSWERED), 3)
  const DIRECT := Cell(Some(State(Direct, E, false)), Some(ROUTED), 3)

  lemma Contact()
    ensures Leads(START, OfferIn(K, Offered(), 1000.0, true), One(BARE, 1000.0, NewJob(K)))
  {
    assert At(START.store, K) == Cell(None, None, 0);
    assert HandleOffer(Cell(None, None, 0), Offered(), 1000.0, true) == OfferResult(BARE, Accepted(true));
    assert Put(START.store, K, BARE) == One(BARE, 1000.0, NewJob(K)).store;
  }

  lemma FirstSteps() returns (steps: seq<(Event, World)>)
    ensures Chain(START, steps) && |steps| > 0 && steps[|steps| - 1].1 == One(BARE, 1000.0, Pc(Reading(0), NotStarted))
  {
    Contact();
    var w0 := One(BARE, 1000.0, NewJob(K));
    var w1 := One(BARE, 1000.0, Pc(Choosing(0), NotStarted));
    var w2 := One(BARE, 1000.0, Pc(Reading(0), NotStarted));
    ProbeLeads(BARE, 1000.0, NewJob(K), BARE, Pc(Choosing(0), NotStarted));
    ProbeLeads(BARE, 1000.0, Pc(Choosing(0), NotStarted), BARE, Pc(Reading(0), NotStarted));
    steps := [(OfferIn(K, Offered(), 1000.0, true), w0)];
    ChainOne(START, OfferIn(K, Offered(), 1000.0, true), w0);
    steps := Extend(START, steps, ProbeWork(3, OK), w1);
    steps := Extend(START, steps, ProbeWork(3, OK), w2);
  }

  /** From first contact to the candidate being aimed at. */
  lemma Approach() returns (steps: seq<(Event, World)>)
    ensures Chain(START, steps) && |steps| > 0 && steps[|steps| - 1].1 == One(AIM, 1000.0, Pc(Polling(0, 0.0), NotStarted))
  {
    var w3 := One(BARE, 1000.0, Pc(Ready(0, 0.0), NotStarted));
    var w4 := One(AIM, 1000.0, Pc(Polling(0, 0.0), NotStarted));
    ProbeLeads(BARE, 1000.0, Pc(Reading(0), NotStarted), BARE, Pc(Ready(0, 0.0), NotStarted));
    ProbeLeads(BARE, 1000.0, Pc(Ready(0, 0.0), NotStarted), AIM, Pc(Polling(0, 0.0), NotStarted));
    steps := FirstSteps();
    steps := Extend(START, steps, ProbeWork(3, OK), w3);
    steps := Extend(START, steps, ProbeWork(3, OK), w4);
  }

  lemma Extend(w: World, steps: seq<(Event, World)>, e: Event, w': World) returns (longer: seq<(Event, World)>)
    requires Chain(w, steps) && steps != [] && Leads(steps[|steps| - 1].1, e, w')
    ensures Chain(w, longer) && longer == steps + [(e, w')]
  {
    ChainOne(steps[|steps| - 1].1, e, w');
    ChainJoin(w, steps, [(e, w')]);
    longer := steps + [(e, w')];
  }

  /** The peer answers and is promoted. */
  lemma Promotion() returns (steps: seq<(Event, World)>)
    ensures Chain(START, steps) && |steps| > 0 && steps[|steps| - 1].1 == One(DIRECT, 1001.0, Pc(Promoted(0, E), NotStarted))
  {
    var j := Pc(Polling(0, 0.0), NotStarted);
    var w1, w2 := One(AIM, 1001.0, j), One(HEARD, 1001.0, j);
    var seen := Pc(Seen(0, 0.0, 1001.0, E), NotStarted);
    assert Leads(One(AIM, 1000.0, j), Tick(1001.0), w1);
    assert Leads(w1, Handshake(K, 1001.0, E), w2) by {
      assert w1.store.table == map[K := AIMED] && w2.store.table == map[K := ANSWERED];
    }
    ProbeLeads(HEARD, 1001.0, j, HEARD, Pc(Querying(0, 0.0), NotStarted));
    ProbeLeads(HEARD, 1001.0, Pc(Querying(0, 0.0), NotStarted), HEARD, seen);
    ProbeLeads(HEARD, 1001.0, seen, DIRECT, Pc(Promoted(0, E), NotStarted));
    steps := Approach();
    steps := Extend(START, steps, Tick(1001.0), w1);
    steps := Extend(START, steps, Handshake(K, 1001.0, E), w2);
    steps := Extend(START, steps, ProbeWork(3, OK), One(HEARD, 1001.0, Pc(Querying(0, 0.0), NotStarted)));
    steps := Extend(START, steps, ProbeWork(3, OK), One(HEARD, 1001.0, seen));
    steps := Extend(START, steps, ProbeWork(3, OK), One(DIRECT, 1001.0, Pc(Promoted(0, E), NotStarted)));
  }

  // ---------------------------------------------------------------- a rekey whose removal fails

  const REKEYED := WgPeer(E, true, 0.0, false)
  const FRESHLY := Cell(Some(State(Confirm6, E, true)), Some(REKEYED), 3)
  const LEFT := Cell(Some(Fail(State(Confirm6, E, true), 1001.0)), Some(REKEYED.(stray := true)), 3)

  /**
   * The rekey times out and its remove command fails: an idle /32 without any handshake remains, one second
   * after a complete pass.
   */
  lemma FailedRekeyLeavesRoute() returns (run: seq<Event>)
    ensures Initial(START) && Possible(START, run)
    ensures var w := After(START, run);
            && w.clock == w.lastPass + 1.0
            && Covered(At(w.store, K)) && w.store.states[K].mode == Idle && Latest(At(w.store, K).peer) == 0.0
            && w.clock - Latest(At(w.store, K).peer) > DIRECT_MAX_AGE + 1.0
  {
    var done := Finishing;
    ProbeLeads(DIRECT, 1001.0, Pc(Promoted(0, E), NotStarted), DIRECT, Pc(done, Waiting(E)));
    RekeyLeads(DIRECT, 1001.0, Pc(done, Waiting(E)), OK, FRESHLY, Pc(done, Rekeying(E)));
    RekeyLeads(FRESHLY, 1001.0, Pc(done, Rekeying(E)), Deadline, FRESHLY, Pc(done, TimedOut));
    RekeyLeads(FRESHLY, 1001.0, Pc(done, TimedOut), FAILING, LEFT, Pc(done, Ending));
    var steps := Promotion();
    steps := Extend(START, steps, ProbeWork(3, OK), One(DIRECT, 1001.0, Pc(done, Waiting(E))));
    steps := Extend(START, steps, ConfirmWork(3, OK), One(FRESHLY, 1001.0, Pc(done, Rekeying(E))));
    steps := Extend(START, steps, ConfirmWork(3, Deadline), One(FRESHLY, 1001.0, Pc(done, TimedOut)));
    steps := Extend(START, steps, ConfirmWork(3, FAILING), One(LEFT, 1001.0, Pc(done, Ending)));
    ChainRuns(START, steps);
    AtOne(LEFT, 1001.0, Pc(done, Ending));
    run := Events(steps);
  }

  // ---------------------------------------------------------------- a cleanup that fails

  const ORPHAN := Cell(None, Some(ROUTED.(stray := true)), 4)

  /** The cleanup fails to remove the route; passes go on as if nothing was there, at whatever time. */
  lemma FailedCleanupOrphansRoute(later: real) returns (run: seq<Event>)
    requires later >= 1001.0
    ensures Initial(START) && Possible(START, run)
    ensures var w := After(START, run);
            && w.clock == w.lastPass == later
            && Orphaned(At(w.store, K)) && Latest(At(w.store, K).peer) == 1001.0
  {
    var j := Pc(Promoted(0, E), NotStarted);
    var w0, w1, w2 := One(DIRECT, 1001.0, j), One(ORPHAN, 1001.0, j), One(ORPHAN, later, j);
    AtOne(DIRECT, 1001.0, j);
    AtOne(ORPHAN, later, j);
    var cleanup, pass := Cleanup([K], {}, {K}), Monitor([], later, {});
    assert Leads(w0, cleanup, w1) by {
      assert CleanupKey(DIRECT, false) == ORPHAN;
      assert Put(w0.store, K, ORPHAN) == w1.store;
      assert [K][1..] == [];
      assert CleanupPass(w1.store, [], {}, {K}) == w1.store;
    }
    assert Leads(w1, Tick(later), w2);
    assert Leads(w2, pass, w2.(lastPass := later)) by {
      assert w2.store.states == map[];
      assert MonitorPass(w2.store, [], later, {}) == Pass(w2.store, [], false);
    }
    var steps := Promotion();
    steps := Extend(START, steps, cleanup, w1);
    steps := Extend(START, steps, Tick(later), w2);
    steps := Extend(START, steps, pass, w2.(lastPass := later));
    ChainRuns(START, steps);
    run := Events(steps);
  }
}
