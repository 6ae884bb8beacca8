/** What a monitor pass does to one key, told from the state before it. */
module PassTheorems {
  import opened Basics
  import opened PeerRegions

  /** A /32 whose last handshake is at most 180 seconds old. */
  predicate LivePath(p: Option<WgPeer>, now: real) {
    p.Some? && p.value.routed && p.value.latest != 0.0 && now - p.value.latest <= 180.0
  }

  /** One whose last handshake is older, or that never had one. */
  predicate StalePath(p: Option<WgPeer>, now: real) {
    p.Some? && p.value.routed && !LivePath(p, now)
  }

  /** The lease of a session that has not lost its control session is over. */
  predicate RunsOut(c: Cell, now: real)
    requires c.st.Some?
  {
    !c.st.value.controlExpired && c.st.value.lease != 0.0 && c.st.value.lease <= now
  }

  /** The peer is re-created for a rekey and not looked at. */
  predicate Busy(c: Cell, now: real)
    requires c.st.Some?
  {
    c.st.value.mode == Confirm6 && c.st.value.running && !RunsOut(c, now)
  }

  /** The session is over for the agent, and with it the state. */
  predicate Ends(c: Cell, now: real)
    requires c.st.Some?
  {
    (RunsOut(c, now) && !LivePath(c.peer, now)) || (!Busy(c, now) && c.st.value.controlExpired && StalePath(c.peer, now))
  }

  /** The pass has to remove the peer. */
  predicate PassRemoves(c: Cell, now: real)
    requires c.st.Some?
  {
    c.peer.Some? && ((RunsOut(c, now) && !LivePath(c.peer, now)) || (!Busy(c, now) && StalePath(c.peer, now)))
  }

  /** A probe is due. */
  predicate ProbeDue(c: Cell, now: real)
    requires c.st.Some?
  {
    && !Ends(c, now) && !Busy(c, now) && !LivePath(c.peer, now) && c.st.value.candidates != []
    && now >= (if StalePath(c.peer, now) then 0.0 else c.st.value.retryAfter)
    && (StalePath(c.peer, now) || !c.st.value.running)
  }

  /**
   * What the pass does to one key.  A failing remove raises and leaves the state as it was.  A session that is
   * over loses its state, unless its path is alive: then only its control is marked as lost.  A live path is
   * confirmed, a stale one withdrawn, and a probe is claimed exactly if it is due.
   */
  lemma PassActs(c: Cell, now: real, wgOk: bool)
    requires c.st.Some?
    ensures var r := MonitorKey(c, now, wgOk);
            && (r.aborted <==> PassRemoves(c, now) && !wgOk)
            && (if r.aborted then r.cell == c.(peer := Some(c.peer.value.(stray := true))) && !r.launched
                else
                  && r.cell.peer == (if PassRemoves(c, now) then None else c.peer)
                  && (r.cell.st.None? <==> Ends(c, now))
                  && (r.launched <==> ProbeDue(c, now))
                  && (if Ends(c, now) then r.cell.gen > c.gen
                      else
                        var s, t := c.st.value, r.cell.st.value;
                        && t == s.(mode := t.mode, endpoint := t.endpoint, generation := t.generation, running := t.running,
                                   retryAfter := if StalePath(c.peer, now) && !Busy(c, now) then 0.0 else s.retryAfter,
                                   controlExpired := s.controlExpired || RunsOut(c, now),
                                   lease := if RunsOut(c, now) then 0.0 else s.lease)
                        && (if Busy(c, now) then r.cell == c
                            else if LivePath(c.peer, now) then
                              t.mode == Direct && t.endpoint == c.peer.value.endpoint && t.generation == s.generation
                              && t.running == (!RunsOut(c, now) && s.running) && r.cell.gen == c.gen
                            else
                              && t.endpoint == (if StalePath(c.peer, now) then "" else s.endpoint)
                              && (if r.launched then t.running && t.mode == Probe && c.gen < t.generation == r.cell.gen
                                  else if StalePath(c.peer, now) then !t.running && t.mode == Idle && t.generation > c.gen
                                  else t.generation == s.generation && t.running == s.running && r.cell.gen == c.gen
                                       && t.mode == if s.mode == Probe && !s.running then Idle else s.mode))))
  {
  }

  lemma PassOutcome(c: Cell, now: real, wgOk: bool)
    requires c.st.Some?
    ensures MonitorKey(c, now, wgOk).aborted <==> PassRemoves(c, now) && !wgOk
    ensures MonitorKey(c, now, wgOk).launched <==> ProbeDue(c, now) && (wgOk || !PassRemoves(c, now))
  {
    PassActs(c, now, wgOk);
  }
}
