/**
 * The locked regions of the agent, one function per region.
 *
 * Every write the agent makes to its state dictionary or to the WireGuard peer table happens while
 * it holds one lock.  A region touches a single peer key, so it is a function from what the lock
 * protects for that key (a Cell) to the same after the region.
 */
module PeerRegions {
  import opened Basics
  import opened Candidates

  const DIRECT_MAX_AGE := 180.0
  const FAILURE_COOLDOWN := 300.0
  const MIN_LEASE := 30.0
  const MAX_LEASE := 180.0

  type Key = string

  datatype Mode = Idle | Probe | Direct | Confirm6

  datatype Controller = Responder | Initiator

  /** One entry of STATES.  Fields that no decision reads are left out. */
  datatype PeerState = PeerState(
    controller: Controller,
    sessionId: string,
    started: nat,
    instance: string,
    ip: string,
    mode: Mode,
    endpoint: string,
    candidates: seq<Candidate>,
    signature: string,
    failures: nat,
    retryAfter: real,
    generation: nat,
    running: bool,
    controlExpired: bool,
    lease: real)

  /**
   * One dynamic peer of the WireGuard table.  `routed` says that the peer's overlay address is
   * installed as a /32; `latest` is the last handshake, 0 for none.  `stray` is bookkeeping for the
   * proofs: a remove command for this entry has failed since its route was last programmed.
   */
  datatype WgPeer = WgPeer(endpoint: string, routed: bool, latest: real, stray: bool)

  /** What the lock protects for one key: state entry, table entry and the generation counter. */
  datatype Cell = Cell(st: Option<PeerState>, peer: Option<WgPeer>, gen: nat)

  predicate Routed(p: Option<WgPeer>) {
    p.Some? && p.value.routed
  }

  function Latest(p: Option<WgPeer>): real {
    if p.Some? then p.value.latest else 0.0
  }

  /** `latest and now - latest <= DIRECT_MAX_AGE`. */
  predicate Fresh(p: Option<WgPeer>, now: real) {
    Latest(p) != 0.0 && now - Latest(p) <= DIRECT_MAX_AGE
  }

  predicate Healthy(p: Option<WgPeer>, now: real) {
    Routed(p) && Fresh(p, now)
  }

  function NextGen(last: nat, previous: nat): nat {
    Max(last, previous) + 1
  }

  function RetryDelay(failures: nat): real {
    if failures <= 1 then 3.0
    else if failures == 2 then 10.0
    else if failures == 3 then 30.0
    else if failures == 4 then 60.0
    else FAILURE_COOLDOWN
  }

  // ---------------------------------------------------------------- the peer table

  /** `wg set peer K remove`; a failed command leaves the entry in place. */
  function WgRemove(p: Option<WgPeer>, ok: bool): Option<WgPeer> {
    if ok || p.None? then None else Some(p.value.(stray := true))
  }

  /** `wg set peer K endpoint E`, which creates the peer when it is missing. */
  function WgEndpoint(p: Option<WgPeer>, endpoint: string): Option<WgPeer> {
    if p.None? then Some(WgPeer(endpoint, false, 0.0, false)) else Some(p.value.(endpoint := endpoint))
  }

  /** `wg set peer K allowed-ips A/32 endpoint E`. */
  function WgRoute(p: Option<WgPeer>, endpoint: string): Option<WgPeer> {
    Some(WgPeer(endpoint, true, Latest(p), false))
  }

  // ---------------------------------------------------------------- offers

  /** A validated offer; `candidates` is the result of the candidate selection. */
  datatype Offer = Offer(
    controller: Controller,
    sessionId: string,
    started: nat,
    instance: string,
    ip: string,
    candidates: seq<Candidate>,
    requestedExpiry: real)

  datatype Outcome =
    | Unavailable            // no usable endpoint: refused before the lock is taken
    | Ignored                // delayed session
    | StartChanged           // same session with another start time: refused
    | Aborted                // a wg command failed and the exception left the region
    | Accepted(launch: bool)

  datatype OfferResult = OfferResult(cell: Cell, outcome: Outcome)

  datatype Stage = Stage(cell: Cell, aborted: bool)

  function LeaseExpiry(requested: real, now: real): real {
    var atLeast := if requested < now + MIN_LEASE then now + MIN_LEASE else requested;
    if atLeast < now + MAX_LEASE then atLeast else now + MAX_LEASE
  }

  function NewState(o: Offer, generation: nat): PeerState {
    PeerState(o.controller, o.sessionId, o.started, o.instance, o.ip, Idle, "", [], "", 0, 0.0,
              generation, false, false, 0.0)
  }

  predicate IsStale(c: Cell, o: Offer) {
    && c.st.Some? && c.st.value.sessionId != o.sessionId
    && c.st.value.started != 0 && o.started <= c.st.value.started
  }

  predicate ChangesStart(c: Cell, o: Offer) {
    && c.st.Some? && c.st.value.sessionId == o.sessionId
    && c.st.value.started != 0 && c.st.value.started != o.started
  }

  predicate InstanceChanged(c: Cell, o: Offer) {
    c.st.Some? && o.instance != "" && c.st.value.instance != o.instance
  }

  /** Release the claim under a fresh generation, drop the peer, start from a new state. */
  function Replace(c: Cell, o: Offer, wgOk: bool): Stage
    requires c.st.Some?
  {
    var g := NextGen(c.gen, c.st.value.generation);
    if c.peer.Some? && !wgOk then
      Stage(Cell(Some(c.st.value.(generation := g, running := false)), WgRemove(c.peer, false), g), true)
    else
      Stage(Cell(Some(NewState(o, NextGen(g, 0))), None, NextGen(g, 0)), false)
  }

  /** Instance change, session change, or first contact. */
  function Rebase(c: Cell, o: Offer, now: real, wgOk: bool): (r: Stage)
    ensures !r.aborted ==> r.cell.st.Some?
  {
    if c.st.None? then
      Stage(Cell(Some(NewState(o, NextGen(c.gen, 0))), c.peer, NextGen(c.gen, 0)), false)
    else if InstanceChanged(c, o) then
      Replace(c, o, wgOk)
    else if c.st.value.sessionId != o.sessionId then
      if Healthy(c.peer, now) then
        var g := NextGen(c.gen, c.st.value.generation);
        Stage(Cell(Some(c.st.value.(generation := g, running := false, mode := Direct,
                                    endpoint := c.peer.value.endpoint, failures := 0, retryAfter := 0.0)),
                   c.peer, g), false)
      else
        Replace(c, o, wgOk)
    else
      Stage(c, false)
  }

  function Header(s: PeerState, o: Offer, now: real): PeerState {
    s.(sessionId := o.sessionId,
       started := o.started,
       instance := if o.instance != "" then o.instance else s.instance,
       ip := o.ip,
       controller := o.controller,
       lease := LeaseExpiry(o.requestedExpiry, now),
       controlExpired := false,
       candidates := o.candidates)
  }

  /** A changed candidate signature abandons the running probe and any route it does not confirm. */
  function Retarget(c: Cell, o: Offer, now: real, wgOk: bool): (r: Stage)
    requires c.st.Some?
    ensures r.cell.st.Some?
  {
    var s := c.st.value;
    if s.signature == Signature(o.candidates) then Stage(c, false)
    else
      var g := NextGen(c.gen, s.generation);
      var s1 := s.(signature := Signature(o.candidates), generation := g, failures := 0,
                   retryAfter := 0.0, running := false);
      if Healthy(c.peer, now) && EndpointListed(o.candidates, c.peer.value.endpoint) then
        Stage(Cell(Some(s1.(mode := Direct, endpoint := c.peer.value.endpoint)), c.peer, g), false)
      else if c.peer.Some? && !wgOk then
        Stage(Cell(Some(s1), WgRemove(c.peer, false), g), true)
      else
        Stage(Cell(Some(s1.(mode := Idle, endpoint := "")), None, g), false)
  }

  /** Keep an installed route only while its handshake is fresh. */
  function Settle(c: Cell, now: real, wgOk: bool): (r: Stage)
    requires c.st.Some?
    ensures r.cell.st.Some?
  {
    var s := c.st.value;
    if !Routed(c.peer) then Stage(c, false)
    else if Fresh(c.peer, now) then
      Stage(c.(st := Some(s.(mode := Direct, endpoint := c.peer.value.endpoint, running := false))), false)
    else if !wgOk then
      Stage(c.(peer := WgRemove(c.peer, false)), true)
    else
      var g := NextGen(c.gen, s.generation);
      Stage(Cell(Some(s.(generation := g, mode := Idle, endpoint := "", retryAfter := 0.0, running := false)),
                 None, g), false)
  }

  /** Hand the key to a new probe worker. */
  function Claim(c: Cell): Cell
    requires c.st.Some?
  {
    var g := NextGen(c.gen, c.st.value.generation);
    Cell(Some(c.st.value.(generation := g, running := true, mode := Probe)), c.peer, g)
  }

  function ClaimIfDue(c: Cell, now: real): OfferResult
    requires c.st.Some?
  {
    if !Routed(c.peer) && now >= c.st.value.retryAfter && !c.st.value.running
    then OfferResult(Claim(c), Accepted(true))
    else OfferResult(c, Accepted(false))
  }

  function SettleAndClaim(c: Cell, now: real, wgOk: bool): OfferResult
    requires c.st.Some?
  {
    var settled := Settle(c, now, wgOk);
    if settled.aborted then OfferResult(settled.cell, Aborted) else ClaimIfDue(settled.cell, now)
  }

  /** From the signature test to the end of the region. */
  function Steer(c: Cell, o: Offer, now: real, wgOk: bool): OfferResult
    requires c.st.Some?
  {
    var aimed := Retarget(c, o, now, wgOk);
    if aimed.aborted then OfferResult(aimed.cell, Aborted) else SettleAndClaim(aimed.cell, now, wgOk)
  }

  /** From the header fields to the end of the region. */
  function Renew(c: Cell, o: Offer, now: real, wgOk: bool): OfferResult
    requires c.st.Some?
  {
    Steer(c.(st := Some(Header(c.st.value, o, now))), o, now, wgOk)
  }

  /** An admitted offer. */
  function Apply(c: Cell, o: Offer, now: real, wgOk: bool): OfferResult {
    var based := Rebase(c, o, now, wgOk);
    if based.aborted then OfferResult(based.cell, Aborted) else Renew(based.cell, o, now, wgOk)
  }

  /** `handle_offer` from the admission tests to the end of its locked region. */
  function HandleOffer(c: Cell, o: Offer, now: real, wgOk: bool): OfferResult {
    if o.candidates == [] then OfferResult(c, Unavailable)
    else if IsStale(c, o) then OfferResult(c, Ignored)
    else if ChangesStart(c, o) then OfferResult(c, StartChanged)
    else Apply(c, o, now, wgOk)
  }

  // ---------------------------------------------------------------- removes

  datatype Reason = Disconnect | Superseded | Expired

  datatype Removal = Removal(sessionId: string, ip: string, reason: Reason)

  datatype RemoveOutcome = Mismatch | Preserved | RemoveAborted | Removed

  datatype RemoveResult = RemoveResult(cell: Cell, outcome: RemoveOutcome)

  /** A lost control session keeps the route it finds healthy. */
  function PreserveDirect(c: Cell): Cell
    requires c.st.Some? && c.peer.Some?
  {
    c.(st := Some(c.st.value.(controlExpired := true, lease := 0.0, running := false, mode := Direct,
                              endpoint := c.peer.value.endpoint)))
  }

  function HandleRemove(c: Cell, m: Removal, now: real, wgOk: bool): RemoveResult {
    if c.st.None? || c.st.value.sessionId != m.sessionId || c.st.value.ip != m.ip then
      RemoveResult(c, Mismatch)
    else if m.reason == Expired && Healthy(c.peer, now) then
      RemoveResult(PreserveDirect(c), Preserved)
    else if c.peer.Some? && !wgOk then
      RemoveResult(c.(peer := WgRemove(c.peer, false)), RemoveAborted)
    else
      RemoveResult(Cell(None, None, NextGen(c.gen, c.st.value.generation)), Removed)
  }

  // ---------------------------------------------------------------- the monitor

  datatype KeyPass = KeyPass(cell: Cell, launched: bool, aborted: bool)

  /** One iteration of the monitor's loop over the peers. */
  function MonitorKey(c: Cell, now: real, wgOk: bool): KeyPass
    requires c.st.Some?
  {
    var s := c.st.value;
    if !s.controlExpired && s.lease != 0.0 && now >= s.lease then
      if Healthy(c.peer, now) then
        MonitorRoute(PreserveDirect(c), now, wgOk)
      else if c.peer.Some? && !wgOk then
        KeyPass(c.(peer := WgRemove(c.peer, false)), false, true)
      else
        KeyPass(Cell(None, None, NextGen(c.gen, s.generation)), false, false)
    else
      MonitorRoute(c, now, wgOk)
  }

  function MonitorRoute(c: Cell, now: real, wgOk: bool): KeyPass
    requires c.st.Some?
  {
    var s := c.st.value;
    if s.mode == Confirm6 && s.running then KeyPass(c, false, false)
    else if !Routed(c.peer) then MonitorClaim(c, now)
    else if Fresh(c.peer, now) then
      KeyPass(c.(st := Some(s.(mode := Direct, endpoint := c.peer.value.endpoint))), false, false)
    else if !wgOk then
      KeyPass(c.(peer := WgRemove(c.peer, false)), false, true)
    else
      var g := NextGen(c.gen, s.generation);
      if s.controlExpired then KeyPass(Cell(None, None, g), false, false)
      else
        MonitorClaim(Cell(Some(s.(generation := g, mode := Idle, endpoint := "", retryAfter := 0.0,
                                  running := false)), None, g), now)
  }

  function MonitorClaim(c: Cell, now: real): KeyPass
    requires c.st.Some?
  {
    var s := c.st.value;
    if s.mode == Probe && s.running then KeyPass(c, false, false)
    else
      var c1 := c.(st := Some(s.(mode := if s.mode == Probe then Idle else s.mode)));
      if now >= s.retryAfter && !s.running && s.candidates != []
      then KeyPass(Claim(c1), true, false)
      else KeyPass(c1, false, false)
  }

  // ---------------------------------------------------------------- initiator cleanup

  function CleanupKey(c: Cell, wgOk: bool): Cell
    requires c.st.Some?
  {
    Cell(None, WgRemove(c.peer, wgOk), NextGen(c.gen, c.st.value.generation))
  }

  // ---------------------------------------------------------------- worker regions

  /** The ownership test of every probe region. */
  predicate Claimed(c: Cell, g: nat) {
    c.st.Some? && c.st.value.generation == g && c.st.value.running
  }

  predicate ClaimedIn(c: Cell, g: nat, mode: Mode) {
    Claimed(c, g) && c.st.value.mode == mode
  }

  /** Back to idle with one more failure. */
  function Fail(s: PeerState, now: real): PeerState {
    s.(mode := Idle, endpoint := "", failures := s.failures + 1,
       retryAfter := now + RetryDelay(s.failures + 1), running := false)
  }

  /** Aim the peer at one candidate. */
  function ProbeSet(c: Cell, g: nat, endpoint: string, wgOk: bool): Cell {
    if Claimed(c, g) && wgOk
    then Cell(Some(c.st.value.(mode := Probe, endpoint := endpoint)), WgEndpoint(c.peer, endpoint), c.gen)
    else c
  }

  /** Install the /32 after a new handshake. */
  function ProbePromote(c: Cell, g: nat, endpoint: string, wgOk: bool): Cell {
    if Claimed(c, g) && wgOk
    then Cell(Some(c.st.value.(mode := Direct, endpoint := endpoint, failures := 0, retryAfter := 0.0,
                               running := false)),
              WgRoute(c.peer, endpoint), c.gen)
    else c
  }

  /** No candidate answered. */
  function ProbeExhaust(c: Cell, g: nat, now: real, wgOk: bool): Cell {
    if Claimed(c, g) then Cell(Some(Fail(c.st.value, now)), WgRemove(c.peer, wgOk), c.gen) else c
  }

  /** A claim without candidates. */
  function ProbeEmpty(c: Cell, g: nat): Cell {
    if c.st.Some? && c.st.value.generation == g
    then c.(st := Some(c.st.value.(running := false, mode := Idle)))
    else c
  }

  predicate ConfirmReady(c: Cell, g: nat, endpoint: string) {
    && c.st.Some? && c.st.value.generation == g
    && c.st.value.mode == Direct && c.st.value.endpoint == endpoint
  }

  /** Which of the wg commands of one region succeed. */
  datatype Wg = Wg(removed: bool, programmed: bool, undone: bool)

  /** Re-create the peer so that a new session must be negotiated. */
  function ConfirmStart(c: Cell, g: nat, endpoint: string, now: real, wg: Wg): Cell {
    if !ConfirmReady(c, g, endpoint) then c
    else if wg.removed && wg.programmed then
      Cell(Some(c.st.value.(mode := Confirm6, running := true)), WgRoute(None, endpoint), c.gen)
    else
      Cell(Some(Fail(c.st.value, now)), WgRemove(WgRemove(c.peer, wg.removed), wg.undone), c.gen)
  }

  function ConfirmFinalize(c: Cell, g: nat, endpoint: string, wgOk: bool): Cell {
    if ClaimedIn(c, g, Confirm6) && wgOk
    then Cell(Some(c.st.value.(mode := Direct, endpoint := endpoint, failures := 0, retryAfter := 0.0,
                               running := false)),
              WgRoute(c.peer, endpoint), c.gen)
    else c
  }

  function ConfirmTimeout(c: Cell, g: nat, now: real, wgOk: bool): Cell {
    if ClaimedIn(c, g, Confirm6) then Cell(Some(Fail(c.st.value, now)), WgRemove(c.peer, wgOk), c.gen) else c
  }

  /** The `finally` of every worker: release a claim that the worker still holds in its own mode. */
  function Epilogue(c: Cell, g: nat, mode: Mode, now: real, wgOk: bool): Cell {
    if ClaimedIn(c, g, mode)
    then Cell(Some(Fail(c.st.value, now).(generation := NextGen(c.gen, g))), WgRemove(c.peer, wgOk),
              NextGen(c.gen, g))
    else c
  }
}
