/**
 * The agent's own, in-place form: the state dictionary, the peer table and the generation counter as
 * fields, and one method per locked region.  Every method is proved to be the region function of
 * PeerRegions on its key and to leave every other key alone.
 */
module Agent {
  import opened Basics
  import opened Candidates
  import opened PeerRegions
  import opened AgentMachine
  import AgentInvariants

  class Agent {
    var states: map<Key, PeerState>
    var table: map<Key, WgPeer>
    var lastGeneration: nat

    ghost function View(): Store
      reads this
    {
      Store(states, table, lastGeneration)
    }

    constructor ()
      ensures View() == Store(map[], map[], 0)
    {
      states, table, lastGeneration := map[], map[], 0;
    }

    method NextGeneration(previous: nat) returns (g: nat)
      modifies this`lastGeneration
      ensures g == lastGeneration == NextGen(old(lastGeneration), previous)
    {
      lastGeneration := Max(lastGeneration, previous) + 1;
      g := lastGeneration;
    }

    /** `wg set peer K remove`; `failed` stands for the exception. */
    method RemovePeer(key: Key, ok: bool) returns (failed: bool)
      modifies this`table
      ensures failed == (!ok && key in old(table))
      ensures table == Set(old(table), key, WgRemove(Get(old(table), key), ok))
    {
      failed := false;
      if key in table {
        if ok {
          table := table - {key};
        } else {
          failed := true;
          table := table[key := table[key].(stray := true)];
        }
      }
    }

    // -------------------------------------------------------------- offers

    method HandleOffer(key: Key, o: Offer, now: real, wgOk: bool) returns (outcome: Outcome)
      modifies this
      ensures var r := PeerRegions.HandleOffer(At(old(View()), key), o, now, wgOk);
              outcome == r.outcome && View() == Put(old(View()), key, r.cell)
    {
      if o.candidates == [] {
        AgentInvariants.PutSame(View(), key);
        return Unavailable;
      }
      if key in states {
        var s := states[key];
        if s.sessionId != o.sessionId {
          if s.started != 0 && o.started <= s.started {
            AgentInvariants.PutSame(View(), key);
            return Ignored;
          }
        } else if s.started != 0 && s.started != o.started {
          AgentInvariants.PutSame(View(), key);
          return StartChanged;
        }
      }
      outcome := Apply(key, o, now, wgOk);
    }

    /** An admitted offer. */
    method Apply(key: Key, o: Offer, now: real, wgOk: bool) returns (outcome: Outcome)
      modifies this
      ensures var r := PeerRegions.Apply(At(old(View()), key), o, now, wgOk);
              outcome == r.outcome && View() == Put(old(View()), key, r.cell)
    {
      ghost var based := PeerRegions.Rebase(At(View(), key), o, now, wgOk).cell;
      var aborted := Rebase(key, o, now, wgOk);
      if aborted {
        return Aborted;
      }
      AtPut(old(View()), key, based);
      outcome := Renew(key, o, now, wgOk);
      PutPut(old(View()), key, based, PeerRegions.Renew(based, o, now, wgOk).cell);
    }

    /** From the header fields to the launch decision. */
    method Renew(key: Key, o: Offer, now: real, wgOk: bool) returns (outcome: Outcome)
      requires key in states
      modifies this
      ensures var r := PeerRegions.Renew(At(old(View()), key), o, now, wgOk);
              outcome == r.outcome && View() == Put(old(View()), key, r.cell)
    {
      states := states[key := Header(states[key], o, now)];
      ghost var headed := View();
      PutIs(old(View()), headed, key);
      outcome := Steer(key, o, now, wgOk);
      PutTwice(old(View()), headed, View(), key);
    }

    method Replace(key: Key, o: Offer, wgOk: bool) returns (aborted: bool)
      requires key in states
      modifies this
      ensures var r := PeerRegions.Replace(At(old(View()), key), o, wgOk);
              aborted == r.aborted && View() == Put(old(View()), key, r.cell)
    {
      var g := NextGeneration(states[key].generation);
      states := states[key := states[key].(generation := g, running := false)];
      aborted := RemovePeer(key, wgOk);
      if !aborted {
        g := NextGeneration(0);
        states := states[key := NewState(o, g)];
      }
      PutIs(old(View()), View(), key);
    }

    method Rebase(key: Key, o: Offer, now: real, wgOk: bool) returns (aborted: bool)
      modifies this
      ensures var r := PeerRegions.Rebase(At(old(View()), key), o, now, wgOk);
              aborted == r.aborted && View() == Put(old(View()), key, r.cell)
      ensures !aborted ==> key in states
    {
      aborted := false;
      if key !in states {
        var g := NextGeneration(0);
        states := states[key := NewState(o, g)];
        PutIs(old(View()), View(), key);
      } else if o.instance != "" && states[key].instance != o.instance {
        aborted := Replace(key, o, wgOk);
      } else if states[key].sessionId != o.sessionId {
        if Healthy(Get(table, key), now) {
          var g := NextGeneration(states[key].generation);
          states := states[key := states[key].(generation := g, running := false)];
          states := states[key := states[key].(mode := Direct, endpoint := table[key].endpoint)];
          states := states[key := states[key].(failures := 0, retryAfter := 0.0)];
          PutIs(old(View()), View(), key);
        } else {
          aborted := Replace(key, o, wgOk);
        }
      } else {
        AgentInvariants.PutSame(View(), key);
      }
    }

    /** From the signature test to the launch decision. */
    method Steer(key: Key, o: Offer, now: real, wgOk: bool) returns (outcome: Outcome)
      requires key in states
      modifies this
      ensures var r := PeerRegions.Steer(At(old(View()), key), o, now, wgOk);
              outcome == r.outcome && View() == Put(old(View()), key, r.cell)
    {
      ghost var aimed := PeerRegions.Retarget(At(View(), key), o, now, wgOk).cell;
      var aborted := Retarget(key, o, now, wgOk);
      if aborted {
        return Aborted;
      }
      AtPut(old(View()), key, aimed);
      outcome := SettleAndLaunch(key, now, wgOk);
      PutPut(old(View()), key, aimed, PeerRegions.SettleAndClaim(aimed, now, wgOk).cell);
    }

    /** Behind the signature test. */
    method SettleAndLaunch(key: Key, now: real, wgOk: bool) returns (outcome: Outcome)
      requires key in states
      modifies this
      ensures var r := PeerRegions.SettleAndClaim(At(old(View()), key), now, wgOk);
              outcome == r.outcome && View() == Put(old(View()), key, r.cell)
    {
      ghost var settled := PeerRegions.Settle(At(View(), key), now, wgOk).cell;
      var aborted := Settle(key, now, wgOk);
      if aborted {
        return Aborted;
      }
      AtPut(old(View()), key, settled);
      outcome := LaunchIfDue(key, now);
      PutPut(old(View()), key, settled, PeerRegions.ClaimIfDue(settled, now).cell);
    }

    /** The launch decision. */
    method LaunchIfDue(key: Key, now: real) returns (outcome: Outcome)
      requires key in states
      modifies this
      ensures var r := PeerRegions.ClaimIfDue(At(old(View()), key), now);
              outcome == r.outcome && View() == Put(old(View()), key, r.cell)
    {
      var launch := !Routed(Get(table, key)) && now >= states[key].retryAfter && !states[key].running;
      if launch {
        ClaimKey(key);
      } else {
        AgentInvariants.PutSame(View(), key);
      }
      outcome := Accepted(launch);
    }

    method Retarget(key: Key, o: Offer, now: real, wgOk: bool) returns (aborted: bool)
      requires key in states
      modifies this
      ensures var r := PeerRegions.Retarget(At(old(View()), key), o, now, wgOk);
              aborted == r.aborted && View() == Put(old(View()), key, r.cell)
      ensures key in states
    {
      aborted := false;
      if states[key].signature != Signature(o.candidates) {
        states := states[key := states[key].(signature := Signature(o.candidates))];
        var g := NextGeneration(states[key].generation);
        states := states[key := states[key].(generation := g, failures := 0, retryAfter := 0.0, running := false)];
        if Healthy(Get(table, key), now) && EndpointListed(o.candidates, table[key].endpoint) {
          states := states[key := states[key].(mode := Direct, endpoint := table[key].endpoint)];
        } else {
          aborted := RemovePeer(key, wgOk);
          if !aborted {
            states := states[key := states[key].(mode := Idle, endpoint := "")];
          }
        }
      }
      PutIs(old(View()), View(), key);
    }

    method Settle(key: Key, now: real, wgOk: bool) returns (aborted: bool)
      requires key in states
      modifies this
      ensures var r := PeerRegions.Settle(At(old(View()), key), now, wgOk);
              aborted == r.aborted && View() == Put(old(View()), key, r.cell)
      ensures key in states
    {
      aborted := false;
      if Routed(Get(table, key)) {
        if Fresh(Get(table, key), now) {
          states := states[key := states[key].(mode := Direct, endpoint := table[key].endpoint)];
          states := states[key := states[key].(running := false)];
        } else {
          aborted := RemovePeer(key, wgOk);
          if !aborted {
            var g := NextGeneration(states[key].generation);
            states := states[key := states[key].(generation := g, mode := Idle, endpoint := "",
                                                 retryAfter := 0.0, running := false)];
          }
        }
      }
      PutIs(old(View()), View(), key);
    }

    method ClaimKey(key: Key)
      requires key in states
      modifies this`states, this`lastGeneration
      ensures View() == Put(old(View()), key, Claim(At(old(View()), key)))
      ensures key in states && states[key].generation == lastGeneration
    {
      var g := NextGeneration(states[key].generation);
      states := states[key := states[key].(generation := g)];
      states := states[key := states[key].(running := true)];
      states := states[key := states[key].(mode := Probe)];
      PutIs(old(View()), View(), key);
    }

    // -------------------------------------------------------------- removes

    method KeepDirect(key: Key)
      requires key in states && key in table
      modifies this`states
      ensures View() == Put(old(View()), key, PreserveDirect(At(old(View()), key)))
    {
      states := states[key := states[key].(controlExpired := true, lease := 0.0, running := false)];
      states := states[key := states[key].(mode := Direct, endpoint := table[key].endpoint)];
      PutIs(old(View()), View(), key);
    }

    method DropState(key: Key)
      requires key in states
      modifies this`states, this`lastGeneration
      ensures View() == Put(old(View()), key,
                             Cell(None, Get(old(table), key), NextGen(old(lastGeneration), old(states)[key].generation)))
    {
      var g := NextGeneration(states[key].generation);
      states := states[key := states[key].(generation := g, running := false)];
      states := states - {key};
      PutIs(old(View()), View(), key);
    }

    method HandleRemove(key: Key, m: Removal, now: real, wgOk: bool) returns (outcome: RemoveOutcome)
      modifies this
      ensures var r := PeerRegions.HandleRemove(At(old(View()), key), m, now, wgOk);
              outcome == r.outcome && View() == Put(old(View()), key, r.cell)
    {
      if key !in states || states[key].sessionId != m.sessionId || states[key].ip != m.ip {
        AgentInvariants.PutSame(View(), key);
        return Mismatch;
      }
      if m.reason == Expired && Healthy(Get(table, key), now) {
        KeepDirect(key);
        return Preserved;
      }
      var failed := RemovePeer(key, wgOk);
      PutIs(old(View()), View(), key);
      if failed {
        return RemoveAborted;
      }
      ghost var removed := View();
      DropState(key);
      PutTwice(old(View()), removed, View(), key);
      return Removed;
    }

    // -------------------------------------------------------------- passes

    method MonitorPeer(key: Key, now: real, wgOk: bool) returns (launched: bool, aborted: bool)
      requires key in states
      modifies this
      ensures var r := MonitorKey(At(old(View()), key), now, wgOk);
              && launched == r.launched && aborted == r.aborted && View() == Put(old(View()), key, r.cell)
              && (launched ==> key in states && states[key].generation == r.cell.gen)
    {
      var s := states[key];
      ghost var kept := View();
      if !s.controlExpired && s.lease != 0.0 && now >= s.lease {
        if Healthy(Get(table, key), now) {
          KeepDirect(key);
          kept := View();
        } else {
          aborted := RemovePeer(key, wgOk);
          PutIs(old(View()), View(), key);
          if !aborted {
            ghost var removed := View();
            DropState(key);
            PutTwice(old(View()), removed, View(), key);
          }
          return false, aborted;
        }
      } else {
        AgentInvariants.PutSame(kept, key);
      }
      launched, aborted := MonitorPeerRoute(key, now, wgOk);
      PutTwice(old(View()), kept, View(), key);
    }

    method MonitorPeerRoute(key: Key, now: real, wgOk: bool) returns (launched: bool, aborted: bool)
      requires key in states
      modifies this
      ensures var r := MonitorRoute(At(old(View()), key), now, wgOk);
              && launched == r.launched && aborted == r.aborted && View() == Put(old(View()), key, r.cell)
              && (launched ==> key in states && states[key].generation == r.cell.gen)
    {
      launched, aborted := false, false;
      AgentInvariants.PutSame(View(), key);
      if states[key].mode == Confirm6 && states[key].running {
        return;
      }
      ghost var cleared := View();
      if Routed(Get(table, key)) {
        if Fresh(Get(table, key), now) {
          states := states[key := states[key].(mode := Direct, endpoint := table[key].endpoint)];
          PutIs(old(View()), View(), key);
          return;
        }
        aborted := RemovePeer(key, wgOk);
        PutIs(old(View()), View(), key);
        if aborted {
          return;
        }
        if states[key].controlExpired {
          ghost var removed := View();
          DropState(key);
          PutTwice(old(View()), removed, View(), key);
          return;
        }
        var g := NextGeneration(states[key].generation);
        states := states[key := states[key].(generation := g)];
        states := states[key := states[key].(mode := Idle, endpoint := "", retryAfter := 0.0, running := false)];
        PutIs(old(View()), View(), key);
        cleared := View();
      }
      launched := MonitorPeerClaim(key, now);
      PutTwice(old(View()), cleared, View(), key);
    }

    method MonitorPeerClaim(key: Key, now: real) returns (launched: bool)
      requires key in states
      modifies this`states, this`lastGeneration
      ensures var r := MonitorClaim(At(old(View()), key), now);
              && launched == r.launched && View() == Put(old(View()), key, r.cell)
              && (launched ==> key in states && states[key].generation == r.cell.gen)
    {
      launched := false;
      AgentInvariants.PutSame(View(), key);
      if states[key].mode == Probe && states[key].running {
        return;
      }
      if states[key].mode == Probe {
        states := states[key := states[key].(mode := Idle)];
      }
      PutIs(old(View()), View(), key);
      if now >= states[key].retryAfter && !states[key].running && states[key].candidates != [] {
        ghost var idle := View();
        ClaimKey(key);
        PutTwice(old(View()), idle, View(), key);
        launched := true;
      }
    }

    /** One monitor pass over the keys in dictionary order; the launches follow outside the lock. */
    method MonitorOnce(order: seq<Key>, now: real, fails: set<Key>) returns (launches: seq<Launch>, aborted: bool)
      modifies this
      ensures var p := MonitorPass(old(View()), order, now, fails);
              launches == p.launches && aborted == p.aborted && View() == p.store
    {
      launches, aborted := [], false;
      for i := 0 to |order|
        invariant !aborted
        invariant var rest := MonitorPass(View(), order[i..], now, fails);
                  MonitorPass(old(View()), order, now, fails) == rest.(launches := launches + rest.launches)
      {
        assert order[i..][1..] == order[i + 1..];
        var key := order[i];
        if key in states {
          var launched;
          launched, aborted := MonitorPeer(key, now, key !in fails);
          if aborted {
            return;
          }
          if launched {
            launches := launches + [(key, states[key].generation)];
          }
        }
      }
    }

    method CleanupInitiatorStates(order: seq<Key>, active: set<Key>, fails: set<Key>)
      modifies this
      ensures View() == CleanupPass(old(View()), order, active, fails)
    {
      for i := 0 to |order|
        invariant CleanupPass(View(), order[i..], active, fails) == CleanupPass(old(View()), order, active, fails)
      {
        assert order[i..][1..] == order[i + 1..];
        var key := order[i];
        if key in states && states[key].controller == Initiator && key !in active {
          ghost var before := View();
          var g := NextGeneration(states[key].generation);
          states := states[key := states[key].(generation := g, running := false)];
          var _ := RemovePeer(key, key !in fails);
          states := states - {key};
          PutIs(before, View(), key);
        }
      }
    }

    // -------------------------------------------------------------- worker regions

    method FailKey(key: Key, now: real)
      requires key in states
      modifies this`states
      ensures states == old(states)[key := Fail(old(states)[key], now)]
    {
      var failures := states[key].failures + 1;
      states := states[key := states[key].(mode := Idle, endpoint := "", failures := failures,
                                           retryAfter := now + RetryDelay(failures), running := false)];
    }

    method AimProbe(key: Key, g: nat, endpoint: string, wgOk: bool) returns (owned: bool)
      modifies this`states, this`table
      ensures owned == Claimed(At(old(View()), key), g)
      ensures View() == Put(old(View()), key, ProbeSet(At(old(View()), key), g, endpoint, wgOk))
    {
      owned := key in states && states[key].generation == g && states[key].running;
      if owned && wgOk {
        table := table[key := if key in table then table[key].(endpoint := endpoint)
                              else WgPeer(endpoint, false, 0.0, false)];
        states := states[key := states[key].(mode := Probe, endpoint := endpoint)];
      }
      PutIs(old(View()), View(), key);
    }

    method Promote(key: Key, g: nat, endpoint: string, wgOk: bool) returns (owned: bool)
      modifies this`states, this`table
      ensures owned == Claimed(At(old(View()), key), g)
      ensures View() == Put(old(View()), key, ProbePromote(At(old(View()), key), g, endpoint, wgOk))
    {
      owned := key in states && states[key].generation == g && states[key].running;
      if owned && wgOk {
        table := table[key := WgPeer(endpoint, true, if key in table then table[key].latest else 0.0, false)];
        states := states[key := states[key].(mode := Direct, endpoint := endpoint, failures := 0,
                                             retryAfter := 0.0, running := false)];
      }
      PutIs(old(View()), View(), key);
    }

    method GiveUpProbe(key: Key, g: nat, now: real, wgOk: bool)
      modifies this`states, this`table
      ensures View() == Put(old(View()), key, ProbeExhaust(At(old(View()), key), g, now, wgOk))
    {
      if key in states && states[key].generation == g && states[key].running {
        var _ := RemovePeer(key, wgOk);
        FailKey(key, now);
      }
      PutIs(old(View()), View(), key);
    }

    /** Remove the peer and program it again, or undo what was done. */
    method Recreate(key: Key, endpoint: string, wg: Wg) returns (programmed: bool)
      modifies this`table
      ensures programmed == (wg.removed && wg.programmed)
      ensures table == Set(old(table), key,
                           if programmed then WgRoute(None, endpoint)
                           else WgRemove(WgRemove(Get(old(table), key), wg.removed), wg.undone))
    {
      var _ := RemovePeer(key, wg.removed);
      programmed := wg.removed && wg.programmed;
      if programmed {
        table := table[key := WgPeer(endpoint, true, 0.0, false)];
      } else {
        var _ := RemovePeer(key, wg.undone);
      }
    }

    method StartConfirmation(key: Key, g: nat, endpoint: string, now: real, wg: Wg) returns (waiting: bool)
      modifies this`states, this`table
      ensures waiting == (ConfirmReady(At(old(View()), key), g, endpoint) && wg.removed && wg.programmed)
      ensures View() == Put(old(View()), key, ConfirmStart(At(old(View()), key), g, endpoint, now, wg))
    {
      waiting := false;
      if key in states && states[key].generation == g && states[key].mode == Direct && states[key].endpoint == endpoint {
        states := states[key := states[key].(mode := Confirm6, running := true)];
        waiting := Recreate(key, endpoint, wg);
        if !waiting {
          FailKey(key, now);
        }
      }
      PutIs(old(View()), View(), key);
    }

    method FinishConfirmation(key: Key, g: nat, endpoint: string, wgOk: bool)
      modifies this`states, this`table
      ensures View() == Put(old(View()), key, ConfirmFinalize(At(old(View()), key), g, endpoint, wgOk))
    {
      if key in states && states[key].generation == g && states[key].mode == Confirm6 && states[key].running && wgOk {
        table := table[key := WgPeer(endpoint, true, if key in table then table[key].latest else 0.0, false)];
        states := states[key := states[key].(mode := Direct, endpoint := endpoint, failures := 0,
                                             retryAfter := 0.0, running := false)];
      }
      PutIs(old(View()), View(), key);
    }

    method GiveUpConfirmation(key: Key, g: nat, now: real, wgOk: bool)
      modifies this`states, this`table
      ensures View() == Put(old(View()), key, ConfirmTimeout(At(old(View()), key), g, now, wgOk))
    {
      if key in states && states[key].generation == g && states[key].mode == Confirm6 && states[key].running {
        var _ := RemovePeer(key, wgOk);
        FailKey(key, now);
      }
      PutIs(old(View()), View(), key);
    }

    method LeaveWorker(key: Key, g: nat, mode: Mode, now: real, wgOk: bool)
      modifies this
      ensures View() == Put(old(View()), key, Epilogue(At(old(View()), key), g, mode, now, wgOk))
    {
      if key in states && states[key].generation == g && states[key].mode == mode && states[key].running {
        var _ := RemovePeer(key, wgOk);
        FailKey(key, now);
        var released := NextGeneration(g);
        states := states[key := states[key].(generation := released)];
      }
      PutIs(old(View()), View(), key);
    }
  }

  // ---------------------------------------------------------------- writing one key

  /** A store that differs at one key only is the old one with that key's cell put in. */
  lemma PutIs(s: Store, s': Store, k: Key)
    requires s'.states - {k} == s.states - {k} && s'.table - {k} == s.table - {k}
    ensures s' == Put(s, k, At(s', k))
  {
    SetIs(s.states, s'.states, k);
    SetIs(s.table, s'.table, k);
  }

  lemma SetIs<V>(m: map<Key, V>, m': map<Key, V>, k: Key)
    requires m' - {k} == m - {k}
    ensures m' == Set(m, k, Get(m', k))
  {
    forall j ensures Get(m', j) == Get(Set(m, k, Get(m', k)), j) {
      assert j != k ==> Get(m' - {k}, j) == Get(m', j) && Get(m - {k}, j) == Get(m, j);
    }
    SameGet(m', Set(m, k, Get(m', k)));
  }

  lemma SameGet<V>(m: map<Key, V>, m': map<Key, V>)
    requires forall j: Key :: Get(m, j) == Get(m', j)
    ensures m == m'
  {
    forall j: Key ensures j in m <==> j in m' {
      assert Get(m, j) == Get(m', j);
    }
    forall j | j in m ensures m[j] == m'[j] {
      assert Get(m, j) == Get(m', j);
    }
  }

  lemma AtPut(s: Store, k: Key, c: Cell)
    ensures At(Put(s, k, c), k) == c
  {
  }

  lemma PutPut(s: Store, k: Key, c: Cell, d: Cell)
    ensures Put(Put(s, k, c), k, d) == Put(s, k, d)
  {
  }

  lemma PutTwice(s: Store, s1: Store, s2: Store, k: Key)
    requires s1 == Put(s, k, At(s1, k)) && s2 == Put(s1, k, At(s2, k))
    ensures s2 == Put(s, k, At(s2, k))
    ensures At(s2, k).gen == s2.gen
  {
  }
}
