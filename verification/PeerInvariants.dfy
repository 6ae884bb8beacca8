/** What the locked regions keep for one key, and what a worker may rely on between its regions. */
module PeerInvariants {
  import opened Basics
  import opened Candidates
  import opened PeerRegions

  /** How claim, mode and route of one key fit together. */
  ghost predicate Consistent(c: Cell) {
    match c.st
    case None => Routed(c.peer) ==> c.peer.value.stray
    case Some(s) =>
      && s.generation <= c.gen
      && (s.running ==> s.mode == Probe || s.mode == Confirm6)
      && (s.running && s.mode == Probe ==> !Routed(c.peer))
      && (s.mode == Direct ==> Routed(c.peer))
      && (s.mode == Confirm6 ==> Routed(c.peer) && (s.running || c.peer.value.stray))
      && (s.mode == Idle || s.mode == Probe ==> (Routed(c.peer) ==> c.peer.value.stray))
  }

  /** The per-key invariant. */
  ghost predicate CellInv(c: Cell) {
    Consistent(c) && (c.st.Some? ==> c.st.value.candidates != [])
  }

  /** All that a region entered from outside a worker can do to a key. */
  ghost predicate External(c: Cell, d: Cell, launched: bool) {
    && c.gen <= d.gen
    && (d.st.Some? ==>
          || (c.st.Some? && d.st.value.generation == c.st.value.generation)
          || c.gen < d.st.value.generation <= d.gen)
    && (launched ==>
          && d.st.Some? && d.st.value.running && d.st.value.mode == Probe
          && c.gen < d.st.value.generation == d.gen)
    && (d.st.Some? && d.st.value.running && !launched ==>
          && c.st.Some? && c.st.value.running
          && d.st.value.generation == c.st.value.generation && d.st.value.mode == c.st.value.mode
          && Latest(d.peer) == Latest(c.peer))
    && (c.st.Some? && c.st.value.running && c.st.value.mode == Probe
        && d.st.Some? && d.st.value.generation == c.st.value.generation ==>
          d.st.value.running && d.st.value.mode == Probe)
    && (c.st.Some? && d.st.Some? && d.st.value.generation == c.st.value.generation && d.st.value.mode == Confirm6 ==>
          c.st.value.mode == Confirm6 && d.st.value.running == c.st.value.running)
    && (c.st.Some? && d.st.Some? && d.st.value.generation == c.st.value.generation && c.st.value.mode == Direct ==>
          d.st.value.mode == Direct)
    && (Routed(d.peer) ==> Routed(c.peer) && Latest(d.peer) == Latest(c.peer))
  }

  lemma ExternalTransitive(c: Cell, d: Cell, e: Cell, launched: bool)
    requires Consistent(c) && External(c, d, false) && External(d, e, launched)
    ensures External(c, e, launched)
  {
  }

  lemma RebaseRegion(c: Cell, o: Offer, now: real, wgOk: bool)
    requires CellInv(c)
    ensures var r := Rebase(c, o, now, wgOk);
            Consistent(r.cell) && External(c, r.cell, false) && (r.aborted ==> CellInv(r.cell))
  {
  }

  lemma RetargetRegion(c: Cell, o: Offer, now: real, wgOk: bool)
    requires CellInv(c) && c.st.Some?
    ensures var r := Retarget(c, o, now, wgOk); CellInv(r.cell) && External(c, r.cell, false)
  {
  }

  lemma SettleRegion(c: Cell, now: real, wgOk: bool)
    requires CellInv(c) && c.st.Some?
    ensures var r := Settle(c, now, wgOk); CellInv(r.cell) && External(c, r.cell, false)
  {
  }

  lemma SteerRegion(c: Cell, o: Offer, now: real, wgOk: bool)
    requires CellInv(c) && c.st.Some?
    ensures var r := Steer(c, o, now, wgOk);
            CellInv(r.cell) && External(c, r.cell, r.outcome == Accepted(true))
  {
    var aimed := Retarget(c, o, now, wgOk);
    RetargetRegion(c, o, now, wgOk);
    if aimed.aborted { return; }
    var settled := Settle(aimed.cell, now, wgOk);
    SettleRegion(aimed.cell, now, wgOk);
    ExternalTransitive(c, aimed.cell, settled.cell, false);
    if settled.aborted { return; }
    var r := ClaimIfDue(settled.cell, now);
    ExternalTransitive(c, settled.cell, r.cell, r.outcome == Accepted(true));
  }

  lemma OfferRegion(c: Cell, o: Offer, now: real, wgOk: bool)
    requires CellInv(c)
    ensures var r := HandleOffer(c, o, now, wgOk);
            CellInv(r.cell) && External(c, r.cell, r.outcome == Accepted(true))
  {
    if o.candidates == [] || IsStale(c, o) || ChangesStart(c, o) { return; }
    var based := Rebase(c, o, now, wgOk);
    RebaseRegion(c, o, now, wgOk);
    if based.aborted { return; }
    var headed := based.cell.(st := Some(Header(based.cell.st.value, o, now)));
    ExternalTransitive(c, based.cell, headed, false);
    SteerRegion(headed, o, now, wgOk);
    var r := Steer(headed, o, now, wgOk);
    ExternalTransitive(c, headed, r.cell, r.outcome == Accepted(true));
  }

  lemma RemoveRegion(c: Cell, m: Removal, now: real, wgOk: bool)
    requires CellInv(c)
    ensures var r := HandleRemove(c, m, now, wgOk); CellInv(r.cell) && External(c, r.cell, false)
  {
  }

  lemma MonitorRegion(c: Cell, now: real, wgOk: bool)
    requires CellInv(c) && c.st.Some?
    ensures var r := MonitorKey(c, now, wgOk);
            CellInv(r.cell) && External(c, r.cell, r.launched) && !(r.launched && r.aborted)
  {
  }

  lemma CleanupRegion(c: Cell, wgOk: bool)
    requires CellInv(c) && c.st.Some?
    ensures CellInv(CleanupKey(c, wgOk)) && External(c, CleanupKey(c, wgOk), false)
  {
  }
}
