/** Concrete runs that show which hypotheses of the theorems about the agent cannot be dropped. */
module AgentLimits {
  import opened Basics
  import opened Candidates
  import opened PeerRegions
  import opened AgentMachine
  import opened AgentInvariants
  import opened ClaimTheorems

  const K: Key := "k"
  const J: Key := "j"
  const E := "8.8.4.4:51820"
  const LIST := [Candidate(Observed4, Udp4, E, 700, true)]
  const SIGN := Signature(LIST)
  const START := World(Store(map[], map[], 0), 0.0, map[], 0.0)
  const OK := Go(Wg(true, true, true), false)

  function Offered(at: real): Offer {
    Offer(Responder, "s", 1, "", "10.0.0.3", LIST, at + 180.0)
  }

  function State(mode: Mode, endpoint: string, generation: nat, running: bool, lease: real): PeerState {
    PeerState(Responder, "s", 1, "", "10.0.0.3", mode, endpoint, LIST, SIGN, 0, 0.0, generation, running, false, lease)
  }

  /** A run that begins with one step. */
  lemma Prepend(w: World, e: Event, run: seq<Event>)
    requires Enabled(w, e) && Possible(Next(w, e), run)
    ensures Possible(w, [e] + run) && After(w, [e] + run) == After(Next(w, e), run)
  {
  }

  /** One run after another. */
  lemma {:induction false} Join(w: World, run: seq<Event>, more: seq<Event>)
    requires Possible(w, run) && Possible(After(w, run), more)
    ensures Possible(w, run + more) && After(w, run + more) == After(After(w, run), more)
    decreases |run|
  {
    if run == [] {
      assert run + more == more;
    } else {
      Join(Next(w, run[0]), run[1..], more);
      assert (run + more)[1..] == run[1..] + more;
    }
  }

  /** First contact: the offer claims the key under a new generation. */
  lemma FirstOffer(gen: nat, at: real)
    requires at >= 0.0
    ensures HandleOffer(Cell(None, None, gen), Offered(at), at, true)
            == OfferResult(Cell(Some(State(Probe, "", gen + 3, true, at + 180.0)), None, gen + 3), Accepted(true))
  {
  }

  const AIMED := WgPeer(E, false, 0.0, false)
  const ANSWERED := WgPeer(E, false, 1.0, false)

  /** The world with the one key K under probe by the worker of generation 3. */
  function Probed(endpoint: string, lease: real, p: Option<WgPeer>, clock: real, j: Job, last: real): World {
    World(Store(map[K := State(Probe, endpoint, 3, true, lease)], Set(map[], K, p), 3), clock, map[3 := j], last)
  }

  function Pc(p: ProbePc): Job {
    Job(K, LIST, p, NotStarted)
  }

  lemma ProbeMoves(endpoint: string, lease: real, p: Option<WgPeer>, clock: real, j: Job, last: real, j': Job)
    requires ProbeStep(Cell(Some(State(Probe, endpoint, 3, true, lease)), p, 3), 3, j, OK, clock)
             == JobResult(Cell(Some(State(Probe, endpoint, 3, true, lease)), p, 3), j')
    requires j.key == j'.key == K
    ensures Next(Probed(endpoint, lease, p, clock, j, last), ProbeWork(3, OK)) == Probed(endpoint, lease, p, clock, j', last)
  {
  }

  lemma Approach() returns (run: seq<Event>)
    ensures Possible(START, run) && After(START, run) == Probed("", 180.0, None, 0.0, Pc(Ready(0, 0.0)), 0.0)
  {
    var w1 := Probed("", 180.0, None, 0.0, NewJob(K), 0.0);
    FirstOffer(0, 0.0);
    assert At(START.store, K) == Cell(None, None, 0);
    assert Next(START, OfferIn(K, Offered(0.0), 0.0, true)) == w1;
    var w2 := Probed("", 180.0, None, 0.0, Pc(Choosing(0)), 0.0);
    ProbeMoves("", 180.0, None, 0.0, NewJob(K), 0.0, Pc(Choosing(0)));
    var w3 := Probed("", 180.0, None, 0.0, Pc(Reading(0)), 0.0);
    ProbeMoves("", 180.0, None, 0.0, Pc(Choosing(0)), 0.0, Pc(Reading(0)));
    ProbeMoves("", 180.0, None, 0.0, Pc(Reading(0)), 0.0, Pc(Ready(0, 0.0)));
    Prepend(w3, ProbeWork(3, OK), []);
    Prepend(w2, ProbeWork(3, OK), [ProbeWork(3, OK)]);
    Prepend(w1, ProbeWork(3, OK), [ProbeWork(3, OK)] + [ProbeWork(3, OK)]);
    run := [ProbeWork(3, OK)] + ([ProbeWork(3, OK)] + [ProbeWork(3, OK)]);
    Prepend(START, OfferIn(K, Offered(0.0), 0.0, true), run);
    run := [OfferIn(K, Offered(0.0), 0.0, true)] + run;
  }

  // ---------------------------------------------------------------- a promotion that comes too late

  lemma Aim() returns (run: seq<Event>)
    ensures Possible(START, run) && After(START, run) == Probed(E, 180.0, Some(AIMED), 0.0, Pc(Polling(0, 0.0)), 0.0)
  {
    run := Approach();
    var w := After(START, run);
    var c := At(w.store, K);
    assert c == Cell(Some(State(Probe, "", 3, true, 180.0)), None, 3);
    assert Worked(w, 3, OK) == JobResult(Cell(Some(State(Probe, E, 3, true, 180.0)), Some(AIMED), 3), Pc(Polling(0, 0.0)));
    assert Next(w, ProbeWork(3, OK)) == Probed(E, 180.0, Some(AIMED), 0.0, Pc(Polling(0, 0.0)), 0.0);
    Prepend(w, ProbeWork(3, OK), []);
    Join(START, run, [ProbeWork(3, OK)]);
    run := run + [ProbeWork(3, OK)];
  }

  lemma Sight() returns (run: seq<Event>)
    ensures Possible(START, run)
    ensures After(START, run) == Probed(E, 180.0, Some(ANSWERED), 1.0, Pc(Seen(0, 0.0, 1.0, E)), 0.0)
  {
    run := Aim();
    var w1 := Probed(E, 180.0, Some(AIMED), 1.0, Pc(Polling(0, 0.0)), 0.0);
    var w2 := Probed(E, 180.0, Some(ANSWERED), 1.0, Pc(Polling(0, 0.0)), 0.0);
    var w3 := Probed(E, 180.0, Some(ANSWERED), 1.0, Pc(Querying(0, 0.0)), 0.0);
    assert Next(After(START, run), Tick(1.0)) == w1;
    assert Next(w1, Handshake(K, 1.0, E)) == w2;
    ProbeMoves(E, 180.0, Some(ANSWERED), 1.0, Pc(Polling(0, 0.0)), 0.0, Pc(Querying(0, 0.0)));
    ProbeMoves(E, 180.0, Some(ANSWERED), 1.0, Pc(Querying(0, 0.0)), 0.0, Pc(Seen(0, 0.0, 1.0, E)));
    Prepend(w3, ProbeWork(3, OK), []);
    Prepend(w2, ProbeWork(3, OK), [ProbeWork(3, OK)]);
    Prepend(w1, Handshake(K, 1.0, E), [ProbeWork(3, OK)] + [ProbeWork(3, OK)]);
    var more := [Handshake(K, 1.0, E)] + ([ProbeWork(3, OK)] + [ProbeWork(3, OK)]);
    Prepend(After(START, run), Tick(1.0), more);
    Join(START, run, [Tick(1.0)] + more);
    run := run + ([Tick(1.0)] + more);
  }

  /** The worker stalls for 200 seconds, while an offer renews the lease and the monitor passes by. */
  lemma Stall() returns (run: seq<Event>)
    ensures Possible(START, run)
    ensures After(START, run) == Probed(E, 280.0, Some(ANSWERED), 201.0, Pc(Seen(0, 0.0, 1.0, E)), 201.0)
  {
    run := Sight();
    var j := Pc(Seen(0, 0.0, 1.0, E));
    var w1 := Probed(E, 180.0, Some(ANSWERED), 100.0, j, 0.0);
    var w2 := Probed(E, 280.0, Some(ANSWERED), 100.0, j, 0.0);
    var w3 := Probed(E, 280.0, Some(ANSWERED), 201.0, j, 0.0);
    var w4 := Probed(E, 280.0, Some(ANSWERED), 201.0, j, 201.0);
    var offer := OfferIn(K, Offered(100.0), 100.0, true);
    assert Next(After(START, run), Tick(100.0)) == w1;
    assert At(w1.store, K) == Cell(Some(State(Probe, E, 3, true, 180.0)), Some(ANSWERED), 3);
    assert HandleOffer(At(w1.store, K), Offered(100.0), 100.0, true)
           == OfferResult(Cell(Some(State(Probe, E, 3, true, 280.0)), Some(ANSWERED), 3), Accepted(false));
    assert Next(w1, offer) == w2;
    assert Next(w2, Tick(201.0)) == w3;
    QuietPass(w3);
    Prepend(w3, Monitor([K], 201.0, {}), []);
    Prepend(w2, Tick(201.0), [Monitor([K], 201.0, {})]);
    var more := [Tick(201.0)] + [Monitor([K], 201.0, {})];
    Prepend(w1, offer, more);
    Prepend(After(START, run), Tick(100.0), [offer] + more);
    Join(START, run, [Tick(100.0)] + ([offer] + more));
    run := run + ([Tick(100.0)] + ([offer] + more));
  }

  /** The monitor passes by a peer under probe. */
  lemma QuietPass(w: World)
    requires w == Probed(E, 280.0, Some(ANSWERED), 201.0, Pc(Seen(0, 0.0, 1.0, E)), 0.0)
    ensures Enabled(w, Monitor([K], 201.0, {})) && Next(w, Monitor([K], 201.0, {})) == w.(lastPass := 201.0)
  {
    assert [K][1..] == [];
    assert MonitorKey(At(w.store, K), 201.0, true) == KeyPass(At(w.store, K), false, false);
    PutSame(w.store, K);
    assert MonitorPass(w.store, [], 201.0, {}) == Pass(w.store, [], false);
    assert MonitorPass(w.store, [K], 201.0, {}) == Pass(w.store, [], false);
  }

  /**
   * Without the bound on the reaction of the worker, a /32 can appear whose handshake is 200 seconds
   * old although a monitor pass was completed at that very instant.
   */
  lemma LatePromotionHappens() returns (run: seq<Event>)
    ensures Possible(START, run)
    ensures var w := After(START, run);
            && w.clock == w.lastPass
            && K in w.store.states && w.store.states[K].mode == Direct
            && Routed(At(w.store, K).peer) && !At(w.store, K).peer.value.stray
            && w.clock - Latest(At(w.store, K).peer) > DIRECT_MAX_AGE
  {
    run := Stall();
    var w := After(START, run);
    assert At(w.store, K) == Cell(Some(State(Probe, E, 3, true, 280.0)), Some(ANSWERED), 3);
    Prepend(w, ProbeWork(3, OK), []);
    Join(START, run, [ProbeWork(3, OK)]);
    run := run + [ProbeWork(3, OK)];
  }

  // ---------------------------------------------------------------- a launch that is dropped

  const RETRYING := State(Idle, "", 7, false, 330.0).(failures := 1, retryAfter := 153.0)

  /** K under probe with a peer entry, and J in some state. */
  function Two(j: PeerState, gen: nat, clock: real, jobs: map<nat, Job>): World {
    World(Store(map[K := State(Probe, E, 3, true, 180.0), J := j], map[K := AIMED], gen), clock, jobs, 0.0)
  }

  lemma SecondPeer() returns (run: seq<Event>)
    ensures Possible(START, run)
    ensures After(START, run) == Two(State(Probe, "", 6, true, 330.0), 6, 150.0,
                                     map[3 := Pc(Polling(0, 0.0)), 6 := NewJob(J)])
  {
    run := Aim();
    var w1 := Probed(E, 180.0, Some(AIMED), 150.0, Pc(Polling(0, 0.0)), 0.0);
    assert Next(After(START, run), Tick(150.0)) == w1;
    FirstOffer(3, 150.0);
    assert At(w1.store, J) == Cell(None, None, 3);
    var offer := OfferIn(J, Offered(150.0), 150.0, true);
    assert Next(w1, offer)
           == Two(State(Probe, "", 6, true, 330.0), 6, 150.0, map[3 := Pc(Polling(0, 0.0)), 6 := NewJob(J)]);
    Prepend(w1, offer, []);
    Prepend(After(START, run), Tick(150.0), [offer]);
    Join(START, run, [Tick(150.0)] + [offer]);
    run := run + ([Tick(150.0)] + [offer]);
  }

  /** The probe of J raises and cleans up; its retry becomes due. */
  lemma Retry() returns (run: seq<Event>)
    ensures Possible(START, run)
    ensures After(START, run) == Two(RETRYING, 7, 190.0,
                                     map[3 := Pc(Polling(0, 0.0)), 6 := NewJob(J).(probe := Done)])
  {
    run := SecondPeer();
    var w0, old3 := After(START, run), Pc(Polling(0, 0.0));
    var t := State(Probe, "", 6, true, 330.0);
    var w1 := Two(t, 6, 150.0, map[3 := old3, 6 := NewJob(J).(probe := Finishing)]);
    var w2 := Two(RETRYING, 7, 150.0, map[3 := old3, 6 := NewJob(J).(probe := Done)]);
    assert At(w0.store, J) == Cell(Some(t), None, 6);
    PutSame(w0.store, J);
    assert Next(w0, ProbeWork(6, Quit)) == w1;
    assert At(w1.store, J) == Cell(Some(t), None, 6);
    assert Worked(w1, 6, OK) == JobResult(Cell(Some(RETRYING), None, 7), NewJob(J).(probe := Done));
    assert Next(w1, ProbeWork(6, OK)) == w2;
    Prepend(w2, Tick(190.0), []);
    Prepend(w1, ProbeWork(6, OK), [Tick(190.0)]);
    Prepend(w0, ProbeWork(6, Quit), [ProbeWork(6, OK)] + [Tick(190.0)]);
    Join(START, run, [ProbeWork(6, Quit)] + ([ProbeWork(6, OK)] + [Tick(190.0)]));
    run := run + ([ProbeWork(6, Quit)] + ([ProbeWork(6, OK)] + [Tick(190.0)]));
  }

  /** J is marked for launch, then the removal of K, whose lease is over, fails. */
  lemma FailingPass(w: World)
    requires w == Two(RETRYING, 7, 190.0, map[3 := Pc(Polling(0, 0.0)), 6 := NewJob(J).(probe := Done)])
    ensures Enabled(w, Monitor([J, K], 190.0, {K})) && Drops(w, Monitor([J, K], 190.0, {K}))
  {
  }

  lemma {:induction false} DropsAtEnd(w: World, run: seq<Event>, e: Event)
    requires Possible(w, run) && Enabled(After(w, run), e) && Drops(After(w, run), e)
    ensures Possible(w, run + [e]) && DropsSomewhere(w, run + [e])
    decreases |run|
  {
    if run == [] {
      assert run + [e] == [e];
      assert Possible(Next(w, e), []);
    } else {
      DropsAtEnd(Next(w, run[0]), run[1..], e);
      assert (run + [e])[1..] == run[1..] + [e];
    }
  }

  /** The exception in NoClaimIsStranded is real: such a run exists. */
  lemma LaunchesCanBeDropped() returns (run: seq<Event>)
    ensures Possible(START, run) && DropsSomewhere(START, run) && !AlwaysMatched(START, run)
  {
    run := Retry();
    FailingPass(After(START, run));
    DropsAtEnd(START, run, Monitor([J, K], 190.0, {K}));
    run := run + [Monitor([J, K], 190.0, {K})];
    NoClaimIsStranded(START, run);
  }
}
