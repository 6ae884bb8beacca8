/** The lease of a session: renewed in time by regular syncs, and gone soon after they end. */
module LeaseTheorems {
  import opened Basics
  import opened PeerRegions
  import opened AgentMachine
  import opened AgentInvariants
  import opened SessionTheorems
  import C = Coordinator
  import V = ReplayCache

  // ---------------------------------------------------------------- renewal

  /**
   * One sync of a client as one server sees it.  The coordinator stamps the sync with `now` and computes
   * the lease at `sentAt`; the agent reads its clock at `handledAt` and has stored the lease at `doneAt`.
   * The last three matter only when the sync pushes.
   */
  datatype Round = Round(now: real, mark: string, force: bool, sentAt: real, handledAt: real, doneAt: real)

  datatype Renewal = Renewal(session: C.Session, lease: real)

  /** A sync whose push, if it is due, succeeds. */
  function Play(r: Renewal, server: string, x: Round): Renewal {
    if C.Due(r.session, server, x.mark, x.now, x.force)
    then Renewal(C.Record(r.session, x.now, map[server := x.mark]), LeaseExpiry(C.LeaseOf(x.sentAt), x.handledAt))
    else Renewal(r.session.(lastSeen := x.now), r.lease)
  }

  function PlayAll(r: Renewal, server: string, rounds: seq<Round>): Renewal
    decreases |rounds|
  {
    if rounds == [] then r else PlayAll(Play(r, server, rounds[0]), server, rounds[1..])
  }

  /** Syncs are at most `gap` apart, and a push takes at most `latency` from the start of its sync. */
  predicate Regular(gap: real, latency: real, rounds: seq<Round>) {
    && (forall i :: 0 <= i < |rounds| ==>
          rounds[i].now <= rounds[i].sentAt <= rounds[i].handledAt <= rounds[i].doneAt <= rounds[i].now + latency)
    && (forall i :: 0 <= i < |rounds| - 1 ==> rounds[i].now <= rounds[i + 1].now <= rounds[i].now + gap)
  }

  /** The instants for which the lease of round `i` has to last: until the next round has been handled. */
  predicate CoveredBy(gap: real, latency: real, rounds: seq<Round>, i: nat, t: real)
    requires i < |rounds|
  {
    t <= if i + 1 < |rounds| then rounds[i + 1].doneAt else rounds[i].now + gap + latency
  }

  /** The lease outlives the last push by more than 179 seconds, and that push is less than 120 seconds old. */
  predicate Renewed(r: Renewal, server: string, now: real) {
    server in r.session.lastPush && server in r.session.prints
    && r.session.lastPush[server] + 179.0 < r.lease && now - r.session.lastPush[server] < 120.0
  }

  lemma {:induction false} PlayRenews(gap: real, latency: real, r: Renewal, server: string, rounds: seq<Round>)
    requires Regular(gap, latency, rounds) && rounds != []
    requires server !in r.session.prints || Renewed(r, server, rounds[0].now - gap)
    ensures Renewed(PlayAll(r, server, rounds), server, rounds[|rounds| - 1].now)
    decreases |rounds|
  {
    var r' := Play(r, server, rounds[0]);
    assert Renewed(r', server, rounds[0].now);
    if |rounds| > 1 {
      assert Renewed(r', server, rounds[1].now - gap);
      assert forall i :: 0 <= i < |rounds[1..]| ==> rounds[1..][i] == rounds[i + 1];
      PlayRenews(gap, latency, r', server, rounds[1..]);
    }
  }

  /**
   * From the first sync of a session on, the lease at the agent lies in the future at every instant, if
   * the largest gap between syncs and the largest latency of a push add up to at most 59 seconds.
   */
  lemma LeaseNeverLapses(gap: real, latency: real, r: Renewal, server: string, rounds: seq<Round>, i: nat, t: real)
    requires gap + latency <= 59.0 && Regular(gap, latency, rounds) && server !in r.session.prints
    requires i < |rounds| && CoveredBy(gap, latency, rounds, i, t)
    ensures t < PlayAll(r, server, rounds[..i + 1]).lease
  {
    PlayRenews(gap, latency, r, server, rounds[..i + 1]);
  }

  /** A sync without delays, whose offer never changes. */
  function Plain(t: real): Round {
    Round(t, "", false, t, t, t)
  }

  /** Syncs after `now`, `gap` apart, the last at `end`; `n` of them suffice to come within `gap` of it. */
  function Spaced(now: real, end: real, gap: real, n: nat): seq<Round>
    decreases n
  {
    if n == 0 || end - now <= gap then [Plain(end)] else [Plain(now + gap)] + Spaced(now + gap, end, gap, n - 1)
  }

  lemma OneGapLess(gap: real, n: nat)
    requires n > 0
    ensures gap * (n + 1) as real - gap == gap * n as real
  {
  }

  /** Putting one more sync in front of regular ones. */
  lemma RegularCons(gap: real, latency: real, now: real, rest: seq<Round>)
    requires rest != [] && Regular(gap, latency, rest) && now <= rest[0].now <= now + gap && 0.0 <= latency
    ensures Regular(gap, latency, [Plain(now)] + rest)
  {
    var rounds := [Plain(now)] + rest;
    forall i | 0 <= i < |rounds| - 1 ensures rounds[i].now <= rounds[i + 1].now <= rounds[i].now + gap {
      if i > 0 { assert rounds[i] == rest[i - 1] && rounds[i + 1] == rest[i]; }
    }
  }

  lemma {:induction false} SpacedRegular(now: real, end: real, gap: real, n: nat, latency: real)
    requires 0.0 < gap && 0.0 <= latency && now <= end && end - now <= gap * (n + 1) as real
    ensures var rounds := [Plain(now)] + Spaced(now, end, gap, n);
            Regular(gap, latency, rounds) && rounds[|rounds| - 1] == Plain(end)
    decreases n
  {
    if n > 0 && end - now > gap {
      OneGapLess(gap, n);
      SpacedRegular(now + gap, end, gap, n - 1, latency);
      RegularCons(gap, latency, now, Spaced(now, end, gap, n));
    } else {
      RegularCons(gap, latency, now, [Plain(end)]);
    }
  }

  /** Before 120 seconds have passed none of them pushes. */
  lemma {:induction false} SpacedIsQuiet(r: Renewal, server: string, now: real, end: real, gap: real, n: nat)
    requires 0.0 < gap && now <= end && server in r.session.lastPush && end < r.session.lastPush[server] + 120.0
    requires server in r.session.prints && r.session.prints[server] == ""
    ensures PlayAll(r, server, Spaced(now, end, gap, n)).lease == r.lease
    decreases n
  {
    var rounds := Spaced(now, end, gap, n);
    var r' := Play(r, server, rounds[0]);
    assert r' == Renewal(r.session.(lastSeen := rounds[0].now), r.lease);
    if n > 0 && end - now > gap {
      assert rounds[1..] == Spaced(now + gap, end, gap, n - 1);
      SpacedIsQuiet(r', server, now + gap, end, gap, n - 1);
    } else {
      assert rounds[1..] == [];
    }
  }

  /** Of these syncs only the first pushes: it comes late in its second, the last just before 120. */
  function LateRounds(gap: real, slack: real): seq<Round>
    requires 0.0 < gap
  {
    var t := 1.0 - slack / 4.0;
    [Plain(t)] + Spaced(t, 119.0 + 2.0 * t, gap, CountOf(gap))
  }

  function CountOf(gap: real): (n: nat)
    requires 0.0 < gap
    ensures 120.0 <= gap * (n + 1) as real
  {
    var q := 120.0 / gap;
    assert q * gap == 120.0 && q >= 0.0;
    assert q <= (q.Floor + 1) as real;
    q.Floor
  }

  /** The bound is exact: with any larger sum, and any gap, the lease can run out between two pushes. */
  lemma LeaseCanLapse(gap: real, latency: real, r: Renewal, server: string, slack: real)
    requires 0.0 < slack < 1.0 && gap + latency >= 59.0 + slack && gap > 0.0 && latency >= 0.0
    requires server !in r.session.prints
    ensures var rounds := LateRounds(gap, slack);
            && Regular(gap, latency, rounds)
            && var t := rounds[|rounds| - 1].now + gap + latency;
            CoveredBy(gap, latency, rounds, |rounds| - 1, t) && PlayAll(r, server, rounds).lease <= t
  {
    var t := 1.0 - slack / 4.0;
    var end, n, rounds := 119.0 + 2.0 * t, CountOf(gap), LateRounds(gap, slack);
    SpacedRegular(t, end, gap, n, latency);
    var r1 := Play(r, server, rounds[0]);
    assert t.Floor == 0;
    assert r1.lease == 180.0 && r1.session.lastPush[server] == t && r1.session.prints[server] == "";
    SpacedIsQuiet(r1, server, t, end, gap, n);
    assert rounds[1..] == Spaced(t, end, gap, n);
    assert PlayAll(r, server, rounds).lease == 180.0;
  }

  // ---------------------------------------------------------------- expiry

  /** An accepted offer gives what it asks for, but at least 30 and at most 180 seconds. */
  lemma OfferLease(c: Cell, o: Offer, now: real, wgOk: bool)
    requires HandleOffer(c, o, now, wgOk).outcome.Accepted?
    ensures var d := HandleOffer(c, o, now, wgOk).cell;
            && d.st.Some? && d.st.value.lease == LeaseExpiry(o.requestedExpiry, now)
            && d.st.value.lease == (if o.requestedExpiry <= now + 30.0 then now + 30.0
                                    else if now + 180.0 <= o.requestedExpiry then now + 180.0 else o.requestedExpiry)
  {
  }

  /**
   * A delayed offer of the session that is held sets the lease as if it were the newest one, so it shortens
   * the lease exactly when it asks for less, or gets less, than what there is.
   */
  lemma DelayedOfferSetsTheLease(c: Cell, o: Offer, now: real, wgOk: bool)
    requires c.st.Some? && c.st.value.sessionId == o.sessionId && HandleOffer(c, o, now, wgOk).outcome.Accepted?
    ensures var lease, lease' := c.st.value.lease, HandleOffer(c, o, now, wgOk).cell.st.value.lease;
            && lease' == LeaseExpiry(o.requestedExpiry, now)
            && (lease' < lease <==> now + 30.0 < lease && (o.requestedExpiry < lease || now + 180.0 < lease))
  {
    OfferLease(c, o, now, wgOk);
  }

  // ---------------------------------------------------------------- delayed offers

  /** What a message that was signed and computed at `sentAt` asks for, verified at `verified`. */
  predicate PassesAt(o: Offer, sentAt: real, verified: real) {
    o.requestedExpiry == C.LeaseOf(sentAt) && V.WithinSkew(sentAt.Floor, verified)
  }

  /** Once verified, however old, an offer that is accepted gives at least 150 seconds from its verification. */
  lemma VerifiedOfferLasts(c: Cell, o: Offer, sentAt: real, verified: real, now: real, wgOk: bool)
    requires PassesAt(o, sentAt, verified) && verified <= now && HandleOffer(c, o, now, wgOk).outcome.Accepted?
    ensures HandleOffer(c, o, now, wgOk).cell.st.value.lease >= verified + 150.0
  {
    OfferLease(c, o, now, wgOk);
  }

  predicate LeasesAreNear(w: World) {
    forall k :: k in w.store.states ==> w.store.states[k].lease <= w.clock + 180.0
  }

  lemma NextKeepsNear(w: World, e: Event)
    requires Enabled(w, e) && LeasesAreNear(w) && w.clock >= 0.0
    ensures LeasesAreNear(Next(w, e)) && Next(w, e).clock >= w.clock
  {
    forall k | k in Next(w, e).store.states
      ensures Next(w, e).store.states[k].lease <= Next(w, e).clock + 180.0
    {
      assert At(Next(w, e).store, k).st == Some(Next(w, e).store.states[k]);
      assert k in w.store.states ==> At(w.store, k).st == Some(w.store.states[k]);
      if e.OfferIn? && e.k == k {
        PutAt(w.store, k, HandleOffer(At(w.store, k), e.offer, e.now, e.wgOk).cell, k);
        OfferLeaseBound(At(w.store, k), e.offer, e.now, e.wgOk, w.clock);
      } else {
        StepSession(w, e, k);
      }
    }
  }

  lemma OfferLeaseBound(c: Cell, o: Offer, now: real, wgOk: bool, clock: real)
    requires 0.0 <= clock && now <= clock && (c.st.Some? ==> c.st.value.lease <= clock + 180.0)
    ensures var d := HandleOffer(c, o, now, wgOk).cell; d.st.Some? ==> d.st.value.lease <= clock + 180.0
  {
    if o.candidates != [] && !IsStale(c, o) && !ChangesStart(c, o) {
      var based := Rebase(c, o, now, wgOk);
      if !based.aborted {
        SteerKeepsControl(based.cell.(st := Some(Header(based.cell.st.value, o, now))), o, now, wgOk);
      }
    }
  }

  lemma {:induction false} RunKeepsNear(w: World, run: seq<Event>)
    requires Possible(w, run) && LeasesAreNear(w) && w.clock >= 0.0
    ensures LeasesAreNear(After(w, run)) && After(w, run).clock >= w.clock
    decreases |run|
  {
    if run != [] {
      NextKeepsNear(w, run[0]);
      RunKeepsNear(Next(w, run[0]), run[1..]);
    }
  }

  /**
   * In every reachable state, an offer that takes `wait` seconds from its verification to the end of its
   * locked region shortens the lease by at most the 30 seconds of the skew and `wait`.
   */
  lemma DelayTakesLittle(start: World, run: seq<Event>, k: Key, o: Offer, sentAt: real, verified: real, now: real,
                         wgOk: bool)
    requires Initial(start) && start.clock >= 0.0 && Possible(start, run) && k in After(start, run).store.states
    requires PassesAt(o, sentAt, verified) && verified <= now <= After(start, run).clock
    requires HandleOffer(At(After(start, run).store, k), o, now, wgOk).outcome.Accepted?
    ensures var w := After(start, run);
            var lease' := HandleOffer(At(w.store, k), o, now, wgOk).cell.st.value.lease;
            w.store.states[k].lease - lease' <= 30.0 + (w.clock - verified)
  {
    RunKeepsNear(start, run);
    VerifiedOfferLasts(At(After(start, run).store, k), o, sentAt, verified, now, wgOk);
  }

  /** Syncs whose pushes fail. */
  function Miss(r: Renewal, rounds: seq<Round>): Renewal
    decreases |rounds|
  {
    if rounds == [] then r
    else Miss(Renewal(C.Record(r.session, rounds[0].now, map[]), r.lease), rounds[1..])
  }

  lemma {:induction false} MissLeaves(r: Renewal, rounds: seq<Round>)
    ensures Miss(r, rounds).lease == r.lease
    ensures Miss(r, rounds).session == r.session.(lastSeen := Miss(r, rounds).session.lastSeen)
    decreases |rounds|
  {
    if rounds != [] {
      var r1 := Renewal(C.Record(r.session, rounds[0].now, map[]), r.lease);
      assert r1.session.lastPush == r.session.lastPush && r1.session.prints == r.session.prints;
      MissLeaves(r1, rounds[1..]);
    }
  }

  lemma RegularJoin(gap: real, latency: real, a: seq<Round>, b: seq<Round>)
    requires a != [] && Regular(gap, latency, a) && Regular(gap, latency, [a[|a| - 1]] + b)
    ensures Regular(gap, latency, a + b)
  {
    var rounds, last := a + b, [a[|a| - 1]] + b;
    forall i | 0 <= i < |rounds| - 1 ensures rounds[i].now <= rounds[i + 1].now <= rounds[i].now + gap {
      if i >= |a| - 1 {
        var j := i - (|a| - 1);
        assert last[j] == rounds[i] && last[j + 1] == rounds[i + 1];
      }
    }
    forall i | 0 <= i < |rounds|
      ensures rounds[i].now <= rounds[i].sentAt <= rounds[i].handledAt <= rounds[i].doneAt <= rounds[i].now + latency
    {
      if i >= |a| { assert rounds[i] == last[i - |a| + 1]; }
    }
  }

  /** Syncs from 0 to 30. */
  function Early(gap: real): (rounds: seq<Round>)
    requires 0.0 < gap
    ensures |rounds| >= 2
  {
    [Plain(0.0)] + Spaced(0.0, 30.0, gap, CountOf(gap))
  }

  /** Syncs from 30 to just before 150. */
  function Later(gap: real, slack: real): seq<Round>
    requires 0.0 < gap
  {
    Spaced(30.0, 150.0 - slack / 2.0, gap, CountOf(gap))
  }

  lemma EarlyThenLater(gap: real, latency: real, slack: real)
    requires 0.0 < slack < 1.0 && gap > 0.0 && latency >= 0.0
    ensures var early, later := Early(gap), Later(gap, slack);
            && Regular(gap, latency, early + later) && early[|early| - 1] == Plain(30.0)
            && later != [] && later[|later| - 1] == Plain(150.0 - slack / 2.0)
  {
    var early, later := Early(gap), Later(gap, slack);
    SpacedRegular(0.0, 30.0, gap, CountOf(gap), latency);
    SpacedRegular(30.0, 150.0 - slack / 2.0, gap, CountOf(gap), latency);
    assert later[|later| - 1] == ([Plain(30.0)] + later)[|later|];
    RegularJoin(gap, latency, early, later);
  }

  /** The first push that is answered is the one at 30. */
  function AnsweredAt30(r: Renewal, server: string, gap: real): Renewal
    requires 0.0 < gap
  {
    var early := Early(gap);
    Play(Miss(r, early[..|early| - 1]), server, Plain(30.0))
  }

  lemma QuietAfter30(gap: real, r: Renewal, server: string, slack: real, lease: real)
    requires 0.0 < slack < 1.0 && gap > 0.0 && server !in r.session.prints
    ensures var r1 := AnsweredAt30(r, server, gap);
            r1.lease == 210.0 && PlayAll(r1.(lease := lease), server, Later(gap, slack)).lease == lease
  {
    var early := Early(gap);
    MissLeaves(r, early[..|early| - 1]);
    var r1 := AnsweredAt30(r, server, gap);
    SpacedIsQuiet(r1.(lease := lease), server, 30.0, 150.0 - slack / 2.0, gap, CountOf(gap));
  }

  /**
   * The window is used up to its end: with any positive gap, and gap and latency adding up to more than 30
   * seconds, there are regular syncs under which the lease runs out.  The pushes before 30 are not answered,
   * the one at 30 is, and then the first one, sent at 0, is handled: 210 becomes 180.  No push is due after
   * that before 150.
   */
  lemma DelayedOfferLapses(gap: real, latency: real, r: Renewal, server: string, slack: real,
                           c: Cell, o: Offer, wgOk: bool)
    requires 0.0 < slack < 1.0 && gap + latency >= 30.0 + slack && gap > 0.0 && latency >= 0.0
    requires server !in r.session.prints && PassesAt(o, 0.0, 30.0) && HandleOffer(c, o, 30.0, wgOk).outcome.Accepted?
    ensures var early, later, r1 := Early(gap), Later(gap, slack), AnsweredAt30(r, server, gap);
            var r2 := r1.(lease := HandleOffer(c, o, 30.0, wgOk).cell.st.value.lease);
            && Regular(gap, latency, early + later) && early[|early| - 1] == Plain(30.0)
            && r1.lease == 210.0 && r2.lease == 180.0
            && later != [] && PlayAll(r2, server, later).lease <= later[|later| - 1].now + gap + latency
  {
    EarlyThenLater(gap, latency, slack);
    QuietAfter30(gap, r, server, slack, 180.0);
    OfferLease(c, o, 30.0, wgOk);
  }

  /** No offer for `k` arrives in the run. */
  predicate Quiet(run: seq<Event>, k: Key) {
    forall i :: 0 <= i < |run| ==> !(run[i].OfferIn? && run[i].k == k)
  }

  /** Nothing but an offer extends a lease or creates a state. */
  lemma {:induction false} OnlyOffersExtend(w: World, run: seq<Event>, k: Key)
    requires Possible(w, run) && Quiet(run, k)
    ensures k in After(w, run).store.states ==>
              k in w.store.states && (After(w, run).store.states[k].lease == w.store.states[k].lease
                                      || After(w, run).store.states[k].lease == 0.0)
    decreases |run|
  {
    if run != [] {
      var w' := Next(w, run[0]);
      StepSession(w, run[0], k);
      OnlyOffersExtend(w', run[1..], k);
      assert k in w'.store.states ==> At(w'.store, k).st == Some(w'.store.states[k]);
      assert k in w.store.states ==> At(w.store, k).st == Some(w.store.states[k]);
    }
  }

  /**
   * A session without further offers is over at the first monitor pass that reaches its key 180 seconds
   * after the last accepted offer: the state is gone or kept only for a healthy direct route, unless the
   * remove command of the pass fails.
   */
  lemma SilenceEndsControl(c: Cell, o: Offer, now: real, wgOk: bool, w: World, run: seq<Event>, k: Key,
                           later: real, ok: bool)
    requires HandleOffer(c, o, now, wgOk).outcome.Accepted? && At(w.store, k).st == HandleOffer(c, o, now, wgOk).cell.st
    requires Possible(w, run) && Quiet(run, k) && now >= 0.0 && later >= now + 180.0
    requires k in After(w, run).store.states && After(w, run).store.states[k].lease != 0.0
    ensures var before := At(After(w, run).store, k);
            var pass := MonitorKey(before, later, ok);
            && before.st.value.lease <= later
            && (before.st.value.controlExpired || pass.aborted || pass.cell.st.None?
                || (pass.cell.st.value.controlExpired && Healthy(pass.cell.peer, later)))
  {
    OfferLease(c, o, now, wgOk);
    assert At(w.store, k).st.Some? ==> At(w.store, k).st == Some(w.store.states[k]);
    OnlyOffersExtend(w, run, k);
  }
}
