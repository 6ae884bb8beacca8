# Verified model of the peer-to-peer overlay

Nodes of a WireGuard overlay normally reach each other through a relay. A coordinator on the relay
tells the agents of the nodes where their peers could be reached directly; each agent probes those
endpoints and, after an authenticated handshake, installs a `/32` route that bypasses the relay. This
project models the agent, the coordinator, the channel between them, the selection of endpoints, the
replay cache of signed notifications and the port mapper, and proves what they promise.

## How it is organised

**The agent.** Everything the agent writes to its state dictionary, to the peer table and to the
generation counter happens inside one lock. `PeerRegions` gives each locked region as a function on
what the lock protects for one key; `Agent` is the in-place form, a class with the dictionaries as
fields, whose methods are proved equal to those functions. `AgentMachine` interleaves the regions with
background workers, the clock and the kernel: a worker is a program counter with its generation,
baseline and candidate index, and any command or query of a worker may fail, STOP may be set at any
step, the clock may advance and handshakes may arrive between any two regions. On top of the invariant
(`PeerInvariants`, `AgentInvariants`) stand `ClaimTheorems`, `ProbeTheorems`, `RekeyTheorems`, `OwnershipTheorems`,
`RouteTheorems`, `StalenessTheorems` and `SessionTheorems`. `OfferTheorems`, `PassTheorems` and `RegionTheorems` tell
the effect of every locked region from the state before it, in literal numbers and in other terms than the region's;
`MonitorLoop` adds the monitor's own sleep between its passes; `AgentLimits` and `RouteLimits` have concrete runs that
show what hypotheses and exceptions are for.

**The coordinator.** `Coordinator` is the session table and its in-place form, `Network` the coordinator
as a state machine together with the messages it has sent. `CoordinatorTheorems` says what a sync does to the table,
what an offer says and what becomes of every session, `Fingerprints` and `SuppressionTheorems` which pushes are
skipped and that this is sound. `Deployment` puts coordinator and agent together over a channel that
loses, repeats, delays and reorders; `StickyTheorems` and `LeaseTheorems` are about the session that
both sides hold, and `RegularTheorems` combines them: under regular syncs the agent keeps a session as
long as the coordinator has it open; `RegularRun` has runs that meet its hypotheses. `Pairs` decides which side
of a pair of servers drives it.

**The rest.** `Candidates`, `CandidateOrder`, `CandidateSelection` and `CandidatesGo` are the selection of
endpoints in both implementations, `SignatureTheorems` its signature, `Endpoints`, `CandidateExchange` and
`ExchangeTheorems` what coordinator and agent accept from each other, `OfferIntake`, `PermissionTheorems` and
`OfferLimits` how the agent gets from the text of an offer to the selection, and what the order of the text
decides, `ReplayCache` the nonce cache, `PortMapper` and `PortMapCodec` the port mapper with its two protocols,
`Basics` shared vocabulary.

`dafny verify dfyconfig.toml` checks everything.

## Assumptions

- Clocks never go back and are modelled as real numbers. `now` of an offer, a monitor pass, a sync, a reaper
  round or the check of a notification was read before the lock was taken, so it may lag behind the clock, and
  notifications may reach the nonce cache in another order than that of their stamps.
- The lease of an offer and the timestamp of its signature are read at one instant.
- Session ids are never reused and `time_ns` is strictly increasing over the sessions that are opened.
- A public key has one overlay address and one role for the whole run, and no two peers share an address;
  so a table entry needs only one bit for its `/32`.
- Only the agent edits dynamic peers; the relay's own `/24` peer is fixed and outside the table.
- A failed `wg` command has no effect. The flag `stray` of a table entry remembers for the invariant that a
  remove of it failed.
- `save_state` succeeds and the agent starts with an empty dictionary and no dynamic peers.
- The address library and JSON are parameters. The theorems that need it assume that canonical address
  texts parse to themselves (`Endpoints.Faithful`), that JSON texts of different candidate lists differ
  (`Fingerprints.Injective`), and that identifiers, keys and endpoints contain no bar.
- Library sorts are stable; `CandidateOrder.StableSortIsUnique` shows that this determines them.

## Where a promise holds only conditionally

- A claim can be stranded: a monitor pass that finds one peer due and then fails to remove another one
  leaves the claim it has marked without a worker until the lease ends. `ClaimTheorems.NoClaimIsStranded` says
  that this is the only way, `AgentLimits.LaunchesCanBeDropped` that it happens, and
  `ClaimTheorems.SucceedingPassesStrandNothing` that it takes a failing remove.
- A /32 can outlive the bound on its handshake. For a key that has a state and is not being rekeyed,
  `StalenessTheorems.StaleExactlyByLateSteps` lists the ways: a worker that stalls between its query and its
  locked region, a rekey whose remove fails, an offer that takes over an orphaned or rekeyed route because its
  own time stamp lags or its remove fails. The next complete pass ends it. A route without a state, which only a
  failed cleanup leaves (`OrphansComeFromCleanup`), is never visited by a pass and has no bound. The runs in
  `AgentLimits.LatePromotionHappens`, `RouteLimits.FailedRekeyLeavesRoute` and
  `RouteLimits.FailedCleanupOrphansRoute` show that all this happens.
- A reordered re-offer can tear down a healthy path: of an offer that is declared WAN, the first lan4 entry of
  the raw list decides whether LAN addresses are tried at all. `OfferIntake.ReorderedOfferIsHarmless` gives the
  exact condition, `OfferIntake.OrderFreeExactly` says for which lists no order matters, and
  `OfferLimits.ReorderedOfferCanHarm` is the failing input, and `PermissionTheorems.LanShowsExactly` says when the
  permission makes a difference at all. A pair that is named twice with different
  priorities shows the order too (`OfferLimits.DuplicatesShowTheOrder`).
- A rekey worker can lose its claim while its generation stays current; `RekeyTheorems.RekeyClaimEndsExactly`
  says exactly when.
- An offer of the held session that arrives late overwrites the lease and can shorten it
  (`LeaseTheorems.DelayedOfferSetsTheLease`). The check of its signature limits what it takes away to the 30
  seconds of the allowed skew and the wait behind that check (`LeaseTheorems.DelayTakesLittle`). So regular syncs
  keep a session if gap and latency add up to at most 59 seconds and offers arrive within their sync, or to at most
  30 less the wait if they arrive at any time in their window (`RegularTheorems.RegularSyncsHold`); beyond
  either bound a lease can run out (`LeaseTheorems.LeaseCanLapse`, `LeaseTheorems.DelayedOfferLapses`).
- A node that announces the unspecified LAN address and advertises nothing gets all its offers refused: the
  coordinator advertises that address for it, and the agent's validation rejects the list
  (`CandidateExchange.OffersAreAccepted`, `CandidateExchange.UnspecifiedLanIsRefused`).
- An offer that a failing command ends is answered with an error but may be recorded all the same, with its candidates
  and their signature: exactly if it got past the replacement of the state (`OfferTheorems.OfferIsRecorded`,
  `OfferTheorems.OfferIsNotRecorded`).
- The Go client takes an IPv4-mapped overlay text for an IPv4 address, the Python programs do not
  (`Pairs.SameDecision`).
- A replay inside the time window succeeds exactly after the capacity limit has evicted its nonce, or after
  another notification has reached the cache with a stamp more than 60 seconds later, which takes stamps that are
  consumed out of order (`ReplayCache.ReplaySucceedsExactly`, `ReplayCache.OutOfOrderReplay`,
  `ReplayCache.EvictionHappens`).
- The refresh of a port mapping leaves the promised room exactly from sixteen seconds of lifetime on, and
  comes before expiry exactly from two seconds on (`PortMapper.RefreshLeavesRoom`).
- The PCP parser reads the result code from byte 2 of a response, while section 7.2 of RFC 6887 puts it in
  byte 3; the model follows the code, and the statements are about success responses.

## Model

| member | source | states |
|---|---|---|
| `Agent.Agent.HandleOffer` | p2p/wireguard-p2p/linux/p2p_agent.py:1104-1250 | the whole locked region of an offer, in place: the outcome and the new state, table and counter are those of the region, and no other key changes |
| `Agent.Agent.Rebase` | p2p/wireguard-p2p/linux/p2p_agent.py:1122-1156 | instance change, session change or first contact, in place |
| `Agent.Agent.Retarget` | p2p/wireguard-p2p/linux/p2p_agent.py:1169-1209 | a changed candidate signature, in place: the probe is abandoned, a route stays only if it is fresh and its endpoint is still listed |
| `Agent.Agent.Settle` | p2p/wireguard-p2p/linux/p2p_agent.py:1211-1235 | an installed route stays only with a fresh handshake, in place |
| `Agent.Agent.HandleRemove` | p2p/wireguard-p2p/linux/p2p_agent.py:1280-1325 | a remove in place: mismatch, preserved route, failed command or deletion |
| `Agent.Agent.MonitorOnce` | p2p/wireguard-p2p/linux/p2p_agent.py:1336-1435 | the loop of a monitor pass over the dictionary: new state, launches in order, and where a failing command ends it |
| `Agent.Agent.MonitorPeer` | p2p/wireguard-p2p/linux/p2p_agent.py:1348-1429 | one iteration of the pass, in place |
| `Agent.Agent.CleanupInitiatorStates` | p2p/wireguard-p2p/linux/p2p_agent.py:519-537 | the loop that drops initiator states of servers that are no longer active |
| `Agent.Agent.AimProbe` | p2p/wireguard-p2p/linux/p2p_agent.py:913-941 | aiming the peer at a candidate happens only with the claim |
| `Agent.Agent.Promote` | p2p/wireguard-p2p/linux/p2p_agent.py:957-994 | installing the /32 happens only with the claim |
| `Agent.Agent.GiveUpProbe` | p2p/wireguard-p2p/linux/p2p_agent.py:1006-1031 | giving up happens only with the claim |
| `Agent.Agent.StartConfirmation` | p2p/wireguard-p2p/linux/p2p_agent.py:724-770 | re-creating the peer for the rekey, with both ways in which its commands fail |
| `Agent.Agent.FinishConfirmation` | p2p/wireguard-p2p/linux/p2p_agent.py:785-819 | finalizing the rekey happens only in the phase that the worker owns |
| `Agent.Agent.GiveUpConfirmation` | p2p/wireguard-p2p/linux/p2p_agent.py:823-849 | abandoning the rekey happens only in the phase that the worker owns |
| `Agent.Agent.LeaveWorker` | p2p/wireguard-p2p/linux/p2p_agent.py:684-713 | the epilogue of every worker: an abandoned claim is released, a replacement or the next phase is left alone |
| `Agent.Agent.NextGeneration` | p2p/wireguard-p2p/linux/p2p_agent.py:166-171 | a generation above every earlier one and above the given one |
| `AgentInvariants.NextKeeps` | p2p/wireguard-p2p/linux/p2p_agent.py:678-1032 | the invariant of the agent (cells, workers, claims) is kept by every step of every worker, of the monitor, of offers and removes and of the kernel; the claims part by every step that drops no launch |
| `OfferTheorems.OfferOutcome` | p2p/wireguard-p2p/linux/p2p_agent.py:1107-1121 | which offers are refused, which are ended by a failing command, told from the state before, and that every other one is accepted |
| `OfferTheorems.OfferIsRecorded` | p2p/wireguard-p2p/linux/p2p_agent.py:1158-1172 | an offer that gets past the replacement of the state leaves its own candidates, signature, address, role, session and instance, whatever was there before and whether or not a later command fails |
| `OfferTheorems.OfferIsNotRecorded` | p2p/wireguard-p2p/linux/p2p_agent.py:1107-1156 | every other offer leaves the recorded fields as they were |
| `OfferTheorems.OfferActs` | p2p/wireguard-p2p/linux/p2p_agent.py:1122-1250 | what an accepted offer does to the path, the claim and the back-off: the peer entry stays unless it has to go, a live path is direct, and a probe is launched exactly if none is running, or the running one is out of date, and no back-off counts |
| `OfferTheorems.FailingOfferKeepsThePeer` | p2p/wireguard-p2p/linux/p2p_agent.py:1122-1250 | an offer that a failing command ends leaves the peer entry with its route |
| `OfferTheorems.StateCarriesLastOffer` | p2p/wireguard-p2p/linux/p2p_agent.py:1158-1172 | in every reachable state a peer carries the candidates and the identity of the last offer recorded for it |
| `OfferTheorems.ProbeTakesLastOffer` | p2p/wireguard-p2p/linux/p2p_agent.py:877-898 | a probe that starts with its claim takes exactly those candidates, from the first one on |
| `PassTheorems.PassActs` | p2p/wireguard-p2p/linux/p2p_agent.py:1344-1429 | what a monitor pass does to one key, all fields: when it raises, when the state ends, which path is confirmed or withdrawn, and that a probe is claimed exactly if it is due |
| `RegionTheorems.RemoveActs` | p2p/wireguard-p2p/linux/p2p_agent.py:1280-1325 | a remove acts only on the session and address it names; only an expired session with a live path keeps it |
| `RegionTheorems.CleanupActs` | p2p/wireguard-p2p/linux/p2p_agent.py:519-537 | the cleanup drops exactly the initiator states outside the active set, with their peers unless a command fails |
| `RegionTheorems.DelaysGrow` | p2p/wireguard-p2p/linux/p2p_agent.py:354-359 | the back-off after one, two, three, four and more failures in a row |
| `RegionTheorems.ProbeFails` | p2p/wireguard-p2p/linux/p2p_agent.py:678-1031 | when a probe fails and what that leaves: one more failure, the back-off it brings, and the peer removed |
| `RegionTheorems.ProbeRegionsAsk` | p2p/wireguard-p2p/linux/p2p_agent.py:913-1031 | the regions of a probe do nothing without the claim |
| `RegionTheorems.WorkersLeave` | p2p/wireguard-p2p/linux/p2p_agent.py:678-713 | how a worker leaves: told to quit, with an empty list, and that one that is done does nothing more |
| `RegionTheorems.RekeyActs` | p2p/wireguard-p2p/linux/p2p_agent.py:717-851 | the confirm6 worker step by step: when it re-creates the peer, takes an answer at most five seconds old, finalizes, and fails |
| `RegionTheorems.FailedPeersWait` | p2p/wireguard-p2p/linux/p2p_agent.py:1413-1429 | over runs: a peer that failed is neither probed nor routed before its back-off is over, unless an offer brings another target |
| `ProbeTheorems.LoopGoesOn` | p2p/wireguard-p2p/linux/p2p_agent.py:878-994 | the loop over the candidates as long as nothing fails, with what it does to the peer |
| `ProbeTheorems.LoopEndsExactly` | p2p/wireguard-p2p/linux/p2p_agent.py:898-1004 | the loop is left early exactly to quit, for a lost claim where it is looked at, or by a promotion that fails; a failing command goes on to the next candidate |
| `ProbeTheorems.WaitingEndsExactly` | p2p/wireguard-p2p/linux/p2p_agent.py:943-957 | a candidate is given up only when its window closes, on a handshake newer than the baseline, without the claim, or to quit |
| `ProbeTheorems.RekeyIsAskedFor` | p2p/wireguard-p2p/linux/p2p_agent.py:1000-1004 | the rekey is asked for exactly after the promotion of a host6 candidate on a node without a global address |
| `ProbeTheorems.ExhaustedHasTriedAll` | p2p/wireguard-p2p/linux/p2p_agent.py:898-1031 | over runs: a probe that gives up has aimed the peer at every one of its candidates, in order, or tried to and failed |
| `ProbeTheorems.AnsweredHasTriedAllBefore` | p2p/wireguard-p2p/linux/p2p_agent.py:898-972 | one with an answer has aimed at all before that candidate, and at that one last |
| `ProbeTheorems.PromotionFollowsHandshake` | p2p/wireguard-p2p/linux/p2p_agent.py:910-994 | over runs: before every promotion the probe has read its baseline, and a later handshake of the peer came after that |
| `ProbeTheorems.ProbeIsUpToDate` | p2p/wireguard-p2p/linux/p2p_agent.py:1166-1178 | a probe that is still current goes through the types and endpoints of the last recorded offer |
| `ClaimTheorems.NoClaimIsStranded` | p2p/wireguard-p2p/linux/p2p_agent.py:678-1032 | from the start, whatever command fails and whenever STOP fires: every claim has its live worker, every working probe of the current generation has the claim, and a rekey worker of the current generation has it exactly while it is at work and the mode is still confirm6; all of it if and only if no monitor pass starts in a state where a key that is due comes before the first key whose remove is needed and fails |
| `ClaimTheorems.DropsExactly` | p2p/wireguard-p2p/linux/p2p_agent.py:1336-1435 | told from the state before a pass, with the exact conditions for a remove and for a launch: those are the passes that lose a marked launch to the exception |
| `ClaimTheorems.SucceedingPassesStrandNothing` | p2p/wireguard-p2p/linux/p2p_agent.py:1336-1435 | so claims match workers forever if the removes of the monitor succeed |
| `ClaimTheorems.DroppedLaunchStrands` | p2p/wireguard-p2p/linux/p2p_agent.py:1417-1435 | an aborted pass that had marked a launch leaves a claim without a worker |
| `ClaimTheorems.MonitorReleasesOnlyAtLeaseEnd` | p2p/wireguard-p2p/linux/p2p_agent.py:1348-1415 | the monitor leaves a probe claim alone exactly unless the lease has run out and the peer can be removed |
| `RekeyTheorems.RekeyClaimEndsExactly` | p2p/wireguard-p2p/linux/p2p_agent.py:1104-1235 | a rekey worker whose generation stays current loses its claim to someone else in exactly three ways: a repeated offer, an expired remove, or a pass after the lease, each of which finds the re-created route fresh |
| `RekeyTheorems.RekeyFollowsHandshake` | p2p/wireguard-p2p/linux/p2p_agent.py:732-785 | over runs: a rekey that takes an answer has re-created the peer without a handshake, and a new one came after that |
| `ClaimTheorems.LaunchesAreFresh` | p2p/wireguard-p2p/linux/p2p_agent.py:166-171 | a launched worker has a generation above all that any state or worker ever had, also across deletion and re-creation of the state |
| `OwnershipTheorems.LossIsFinal` | p2p/wireguard-p2p/linux/p2p_agent.py:724-733 | a worker that has lost its key, or a probe or rekey whose phase is over, never again changes a state or the peer table, in any continuation |
| `OwnershipTheorems.StepKeepsLost` | p2p/wireguard-p2p/linux/p2p_agent.py:684-692 | no step gives a key back to a generation, a probe or a rekey that has lost it |
| `RouteTheorems.RoutesEnterByPromotion` | p2p/wireguard-p2p/linux/p2p_agent.py:949-982 | a /32 enters the table in one way only: a probe that holds the claim and saw a handshake newer than its own baseline |
| `RouteTheorems.RoutesAreBackedByHandshakes` | p2p/wireguard-p2p/linux/p2p_agent.py:910-994 | every /32 in the table goes back to such a promotion, since which it was never withdrawn |
| `RouteTheorems.RekeyContinuesPromotion` | p2p/wireguard-p2p/linux/p2p_agent.py:724-770 | a rekey re-creates only a route that its own generation has promoted to the very endpoint it waits with, and that was there ever since |
| `RouteTheorems.ModeTellsTheRoute` | p2p/wireguard-p2p/linux/p2p_agent.py:724-849 | when removes succeed, a key has a /32 if and only if its mode is direct or confirm6 |
| `StalenessTheorems.StaleExactlyByLateSteps` | p2p/wireguard-p2p/linux/p2p_agent.py:1372-1403 | along any run and for each key: the route of a key that has a state and is not being rekeyed is never older than the last complete pass allows, if and only if no step is late for the key: a worker that programs a route late, a rekey that fails to remove one, or an offer that takes over an orphaned or rekeyed one |
| `StalenessTheorems.DirectIsNeverStale` | p2p/wireguard-p2p/linux/p2p_agent.py:1336-1435 | with the last complete pass at most d back, the /32 of every key that has a state and is not being rekeyed rests on a handshake at most 180 + slack + d seconds old, unless a step was late for this key since that pass; what failed before does not matter |
| `MonitorLoop.RhythmBoundsStaleness` | p2p/wireguard-p2p/linux/p2p_agent.py:1438-1453 | the same under the sleep of the monitor loop itself: d is at most the interval that monitor_interval chose last, 60 seconds only without any state, 20 only if every path was direct, 5 otherwise, and two delays |
| `MonitorLoop.SleepsExactly` | p2p/wireguard-p2p/linux/p2p_agent.py:1438-1447 | how long the monitor sleeps: 60, 20 or 5 seconds |
| `StalenessTheorems.CompletePassRefreshes` | p2p/wireguard-p2p/linux/p2p_agent.py:1372-1403 | a complete pass makes every such route fresh, whatever failed before it |
| `StalenessTheorems.OrphansComeFromCleanup` | p2p/wireguard-p2p/linux/p2p_agent.py:519-537 | a route without a state comes about in exactly one way: the cleanup of initiator states fails to remove it |
| `StalenessTheorems.OrphansAreNeverVisited` | p2p/wireguard-p2p/linux/p2p_agent.py:1344-1346 | no pass looks at such a route, so its age has no bound |
| `RouteLimits.ListIsSelected` | p2p/wireguard-p2p/linux/candidates.py:270-341 | the candidate of the runs below is one that the selection gives |
| `RouteLimits.FailedRekeyLeavesRoute` | p2p/wireguard-p2p/linux/p2p_agent.py:823-849 | a run from the start: the rekey times out, its remove fails, and an idle /32 without any handshake stands one second after a complete pass |
| `RouteLimits.FailedCleanupOrphansRoute` | p2p/wireguard-p2p/linux/p2p_agent.py:526-534 | a run from the start to any later time: the cleanup fails to remove a route, and complete passes leave it |
| `AgentLimits.LatePromotionHappens` | p2p/wireguard-p2p/linux/p2p_agent.py:956-981 | a run from the start in which a late promotion installs a /32 on a handshake of 200 seconds: the condition above cannot be dropped |
| `AgentLimits.LaunchesCanBeDropped` | p2p/wireguard-p2p/linux/p2p_agent.py:1434-1435 | a run from the start that strands a claim: the exception of NoClaimIsStranded is real |
| `SessionTheorems.OfferSituations` | p2p/wireguard-p2p/linux/p2p_agent.py:1104-1250 | an accepted offer leaves exactly one of three situations (healthy direct, claimed by one probe, backing off) and launches exactly when the claim is new |
| `SessionTheorems.OfferSession` | p2p/wireguard-p2p/linux/p2p_agent.py:1109-1165 | an offer changes the session only to its own, and only if it is newer |
| `SessionTheorems.StepSession` | p2p/wireguard-p2p/linux/p2p_agent.py:1336-1435 | every step but an offer for the key keeps its session, controller and lease, or drops the state |
| `SessionTheorems.StartNeverDecreases` | p2p/wireguard-p2p/linux/p2p_agent.py:1109-1121 | while an entry lives, its start time never decreases |
| `SessionTheorems.NewestWins` | p2p/wireguard-p2p/linux/p2p_agent.py:1109-1165 | after any valid offers the session is the newest of those delivered and the one held |
| `SessionTheorems.DeliveryIsConfluent` | p2p/wireguard-p2p/linux/p2p_agent.py:1109-1165 | two deliveries of the same offers, in any order and with any other steps in between, end in the same session, the newest |
| `Coordinator.Coordinator.OpenSession` | p2p/wireguard-p2p/vps/peers_api.py:562-596 | the first locked region of a sync, in place: open or refresh, and the session it replaces |
| `CoordinatorTheorems.SyncOpensExactly` | p2p/wireguard-p2p/vps/peers_api.py:562-600 | from the table alone: a new session exactly for a node without one, with another key, or with another instance; the one that is replaced, and only that, is returned |
| `CoordinatorTheorems.SyncOffers` | p2p/wireguard-p2p/vps/peers_api.py:553-617 | what a sync offers: its session, the node with the instance that it announces, and exactly the servers that it initiates to |
| `CoordinatorTheorems.StoresExactly` | p2p/wireguard-p2p/vps/peers_api.py:651-660 | results and their stamp go into the session that sent them, if it is still there, and nowhere else |
| `CoordinatorTheorems.SessionsCloseExactly` | p2p/wireguard-p2p/vps/peers_api.py:562-603 | a step closes a session exactly when it is replaced, left, or unseen for more than 180 seconds, and then tells the servers why |
| `CoordinatorTheorems.EverySessionIsAccounted` | p2p/wireguard-p2p/vps/peers_api.py:553-720 | over runs: every session that was ever opened is open, or its end was told once |
| `CoordinatorTheorems.OfferNamesTheEndpoint` | p2p/wireguard-p2p/vps/peers_api.py:482-518 | the offer is LAN and names the LAN endpoint exactly if node and server share an address, otherwise WAN and names the endpoint the node is seen at; there is none exactly if that text is empty |
| `CoordinatorTheorems.EveryOfferIsAPush` | p2p/wireguard-p2p/vps/peers_api.py:604-640 | whatever is sent is the offer of a node to a server that it initiates to |
| `CoordinatorTheorems.NamedEndpointIsRanked` | p2p/wireguard-p2p/linux/p2p_agent.py:1080-1098 | from coordinator to agent: the IPv4 endpoint that the offer names is ranked, as lan4 if it is private and LAN addresses are tried and as observed4 otherwise, and the selection is not empty |
| `Coordinator.Coordinator.Decide` | p2p/wireguard-p2p/vps/peers_api.py:608-620 | the loop that decides which servers get a push |
| `Coordinator.Coordinator.StoreResults` | p2p/wireguard-p2p/vps/peers_api.py:651-660 | results go into the session that sent them, or nowhere |
| `Coordinator.Coordinator.Disconnect` | p2p/wireguard-p2p/vps/peers_api.py:711-714 | a disconnect takes the session out of the table |
| `Coordinator.Coordinator.Reap` | p2p/wireguard-p2p/vps/peers_api.py:731-737 | one round of the reaper removes exactly the sessions not seen for 180 seconds |
| `Fingerprints.FingerprintIsInjective` | p2p/wireguard-p2p/vps/peers_api.py:469-479 | the joined text determines all eight fields, if the seven around the JSON text have no bar |
| `Fingerprints.SamePrintSamePayload` | p2p/wireguard-p2p/vps/peers_api.py:482-518 | two pushes of one session with one fingerprint make the same offer up to the lease |
| `Network.PendingExactly` | p2p/wireguard-p2p/vps/peers_api.py:608-620 | a server is pushed if and only if it is a target and the push is forced, changed or due for refresh |
| `Network.NetKeeps` | p2p/wireguard-p2p/vps/peers_api.py:562-746 | every step of the coordinator keeps: open sessions are the newest of their key, what was sent was opened, what was removed is closed |
| `SuppressionTheorems.SuppressionIsSound` | p2p/wireguard-p2p/vps/peers_api.py:608-660 | in every reachable state, a skipped push would have repeated, in every field but the lease, the last offer that this server acknowledged in this session, less than 120 seconds ago |
| `SuppressionTheorems.SkipsExactly` | p2p/wireguard-p2p/vps/peers_api.py:604-658 | a server is skipped exactly if the sync is not forced and its last acknowledged push in this session has the same fingerprint and is less than 120 seconds old |
| `SuppressionTheorems.StepKeepsAcks` | p2p/wireguard-p2p/vps/peers_api.py:651-660 | every stored fingerprint belongs to the last acknowledged push of its session and server, through disconnects and replacements during a sync |
| `Deployment.OneSource` | p2p/wireguard-p2p/vps/peers_api.py:535-550 | offers about a server come either from the coordinator or from the agent itself, never from both |
| `Deployment.SysKeeps` | p2p/wireguard-p2p/linux/p2p_agent.py:1104-1165 | the invariant of coordinator and agent together is kept by every step, with messages lost, repeated and reordered |
| `Deployment.AgentIsNeverAhead` | p2p/wireguard-p2p/vps/peers_api.py:562-596 | in every reachable state the agent carries a session that the coordinator opened for this key; if one is open, that one or an older one |
| `StickyTheorems.OpenSessionIsSticky` | p2p/wireguard-p2p/linux/p2p_agent.py:1109-1121 | once the agent holds the open session no delivered offer or remove replaces or deletes it, and foreign ones change nothing for the peer |
| `StickyTheorems.OpenSessionTakesHold` | p2p/wireguard-p2p/linux/p2p_agent.py:1109-1165 | an offer of the open session takes hold whatever the agent carried before |
| `StickyTheorems.HeldWhileOpen` | p2p/wireguard-p2p/linux/p2p_agent.py:1336-1370 | through any run in which the session stays open and the lease is ahead of every pass, the agent keeps the session |
| `RegularTheorems.RegularSyncsHold` | p2p/wireguard-p2p/vps/peers_api.py:553-660 | end to end: with syncs at most gap apart and pushes taking at most latency, together at most 59 seconds, or 30 less the wait when offers of the session may arrive at any time that their signature allows, the agent keeps the session as long as the coordinator has it open, in every run of both machines on one clock; the lease is the one that the coordinator computed and sent |
| `RegularTheorems.FirstOfferLeads` | p2p/wireguard-p2p/linux/p2p_agent.py:1158-1165 | the first accepted offer during a sync that pushes it puts both machines into a state from which the theorem above holds |
| `RegularRun.RegularRunExists` | p2p/wireguard-p2p/vps/peers_api.py:553-660 | for every timing with gaps of 30 seconds or more there is such a run from the start: a sync that pushes, the delivery, and a second sync with nothing to push, for every node and server in their roles |
| `RegularRun.SomeScene` | p2p/wireguard-p2p/vps/peers_api.py:535-550 | a concrete node and a concrete server in those roles, with any library |
| `RegularTheorems.AskedForLate` | p2p/wireguard-p2p/linux/p2p_agent.py:399-420 | a message that passes the check of its signature within the window gives a lease that ends at least 150 seconds, less the wait behind that check, after the last sync |
| `RegularTheorems.OwnBegin` | p2p/wireguard-p2p/vps/peers_api.py:608-620 | a sync that skips the agent finds the last stored push younger than 120 seconds, so the lease still covers the next round |
| `RegularTheorems.AskedFor` | p2p/wireguard-p2p/vps/peers_api.py:507-518 | a message of the running sync asks for more than 179 seconds from the stamp of the sync, whatever the rounding to whole seconds takes away |
| `RegularTheorems.FinishLeads` | p2p/wireguard-p2p/vps/peers_api.py:651-660 | storing the results of a sync leaves the lease 179 seconds, or 150 less the wait, ahead of the stored push |
| `LeaseTheorems.LeaseNeverLapses` | p2p/wireguard-p2p/vps/peers_api.py:618-658 | with sync gaps and push latency adding up to at most 59 seconds, the lease at the agent is in the future at every instant |
| `LeaseTheorems.LeaseCanLapse` | p2p/wireguard-p2p/vps/peers_api.py:507-518 | the bound is exact: for every positive gap and any larger sum there are regular syncs under which the lease runs out |
| `LeaseTheorems.OfferLease` | p2p/wireguard-p2p/linux/p2p_agent.py:1099-1100 | an accepted offer gives 30 to 180 seconds from now, and the requested time when it lies between |
| `LeaseTheorems.DelayedOfferSetsTheLease` | p2p/wireguard-p2p/linux/p2p_agent.py:1158-1165 | a delayed offer of the held session overwrites the lease, and shortens it exactly when it asks for less or gets less than there is |
| `LeaseTheorems.DelayTakesLittle` | p2p/wireguard-p2p/linux/p2p_agent.py:399-420 | in every reachable state, an offer that passed the check of its signature takes at most the 30 seconds of the skew and its wait behind the check from the lease |
| `LeaseTheorems.DelayedOfferLapses` | p2p/wireguard-p2p/linux/p2p_agent.py:1158-1165 | and it can take that much: with any positive gap, and gap and latency adding up to more than 30 seconds, an unanswered push that is handled at the end of its window, after its answered successor, lets the lease run out under regular syncs |
| `LeaseTheorems.OnlyOffersExtend` | p2p/wireguard-p2p/linux/p2p_agent.py:1348-1370 | nothing but an offer extends a lease or creates a state |
| `LeaseTheorems.SilenceEndsControl` | p2p/wireguard-p2p/linux/p2p_agent.py:1348-1370 | 180 seconds after the last accepted offer a monitor pass ends the session: the state is gone, or kept for a healthy direct route only |
| `Pairs.InitiatorServers` | p2p/wireguard-p2p/vps/peers_api.py:535-550 | the loop that selects the servers a node is offered to |
| `Pairs.TargetsExactly` | p2p/wireguard-p2p/vps/peers_api.py:535-550 | exactly the listed servers that the node initiates to |
| `Pairs.BytesOrderIsNumeric` | p2p/wireguard-p2p-client/main.go:510-517 | comparing four bytes lexicographically is comparing the numbers |
| `Pairs.SameDecision` | p2p/wireguard-p2p/vps/peers_api.py:521-532 | the Go client and the Python programs decide a pair alike, exactly unless an IPv4-mapped text is involved for which the Go client says yes |
| `Pairs.EveryPairHasOneDriver` | p2p/wireguard-p2p/linux/p2p_agent.py:507-516 | among any servers each pair is driven by exactly one side, the same one at the coordinator, at the agent and in the Go client; the agent of that side, and no other, initiates whenever the peer has an endpoint and a recent handshake |
| `Candidates.SelectProbeCandidates` | p2p/wireguard-p2p/linux/candidates.py:297-341 | the whole selection as loops over lists and a set |
| `Candidates.DedupeAndSort` | p2p/wireguard-p2p/linux/candidates.py:374-390 | the loop that keeps the first of every endpoint |
| `CandidateOrder.SortSorts` | p2p/wireguard-p2p/linux/candidates.py:374-378 | the sort orders and permutes |
| `CandidateOrder.StableSortIsUnique` | p2p/wireguard-p2p/linux/candidates.py:374-378 | an ordered permutation that keeps the order of ties is this sort, so any stable library sort is |
| `CandidateSelection.RankedIsBest` | p2p/wireguard-p2p/linux/candidates.py:374-390 | the ranked list is strictly ordered, has every endpoint of the input once, and each with its best entry |
| `CandidateSelection.GathersExactly` | p2p/wireguard-p2p/linux/candidates.py:297-308 | gathered are exactly the entries that can be read and are permitted |
| `CandidateSelection.NormalizesExactly` | p2p/wireguard-p2p/linux/candidates.py:270-294 | which entries can be read, and as what, with the standard priorities |
| `CandidateSelection.LegacyExactly` | p2p/wireguard-p2p/linux/candidates.py:310-330 | what the endpoint of the offer itself counts as |
| `CandidateSelection.OrderIs` | p2p/wireguard-p2p/linux/candidates.py:374-378 | falling priority, then the lexicographic order of the endpoint texts |
| `CandidateSelection.SelectionIsExact` | p2p/wireguard-p2p/linux/candidates.py:332-341 | at most five distinct endpoints in strict order: the top five, or the top four and the best observed4 when that ranks below fifth |
| `CandidateSelection.FallbackInOrder` | p2p/wireguard-p2p/linux/candidates.py:336-340 | the second sort changes nothing |
| `CandidateSelection.SelectionIgnoresOrder` | p2p/wireguard-p2p/linux/candidates.py:297-348 | selection and signature of a candidate list do not depend on its order, if ties agree in type |
| `CandidateSelection.SignatureIgnoresOrder` | p2p/wireguard-p2p/linux/candidates.py:297-348 | permuting a validated list leaves the signature as it was, for one and the same LAN permission |
| `CandidateSelection.TiesShowTheOrder` | p2p/wireguard-p2p/linux/candidates.py:344-348 | two types that tie on priority and endpoint do show the order: the hypothesis is needed |
| `SignatureTheorems.SignatureTells` | p2p/wireguard-p2p/linux/candidates.py:344-348 | two signatures are equal exactly if types and endpoints are, in order |
| `OfferIntake.ReadOffer` | p2p/wireguard-p2p/linux/p2p_agent.py:1080-1095 | from the text of an offer to the candidates: validation, the LAN permission by the first lan4 entry, selection |
| `OfferIntake.PeerLanEndpoint` | p2p/wireguard-p2p/linux/p2p_agent.py:1086-1090 | the loop that finds the first lan4 entry of the raw list |
| `OfferIntake.AcceptedAlike` | p2p/wireguard-p2p/linux/p2p_agent.py:314-351 | validation accepts a reordered list alike and with the same entries, if entries of one pair agree |
| `OfferIntake.OrderFreeExactly` | p2p/wireguard-p2p/linux/p2p_agent.py:1084-1092 | no order of the list changes the LAN permission, exactly if the offer is declared LAN or all lan4 entries get one subnet verdict |
| `OfferIntake.ReorderedSignature` | p2p/wireguard-p2p/linux/p2p_agent.py:1080-1098 | a reordered offer keeps its signature exactly if both orders get the same LAN permission or the permission does not show in the selection |
| `OfferIntake.ReorderedOfferIsHarmless` | p2p/wireguard-p2p/linux/p2p_agent.py:1080-1250 | a reordered re-offer keeps a running probe and a healthy path exactly under that condition (or if it is refused for selecting nothing; a path also if its endpoint is still listed) |
| `PermissionTheorems.LanShowsExactly` | p2p/wireguard-p2p/linux/candidates.py:297-348 | the permission to try LAN addresses shows in the signature exactly if it lets one into the selection, or the best observed4 has its endpoint in a better LAN entry, even one that ranks below fifth |
| `PermissionTheorems.SharedPrefix` | p2p/wireguard-p2p/linux/candidates.py:374-390 | up to the first LAN entry the rankings with and without the permission are the same |
| `OfferLimits.LanShowsWhenSelected` | p2p/wireguard-p2p/linux/candidates.py:297-341 | a selected LAN address makes the permission show even when types tie |
| `OfferLimits.ReorderedOfferCanHarm` | p2p/wireguard-p2p/linux/p2p_agent.py:1084-1092 | the failing input: two LAN addresses of which one is near; putting the far one first removes a healthy path and takes a running probe away |
| `OfferLimits.TheSceneIsProper` | p2p/wireguard-p2p/linux/p2p_agent.py:1084-1092 | concrete addresses for that input |
| `OfferLimits.DuplicatesShowTheOrder` | p2p/wireguard-p2p/linux/p2p_agent.py:337-349 | a pair named twice with two priorities shows the order although no types tie |
| `CandidatesGo.SortCandidates` | p2p/wireguard-p2p-client/candidate.go:282-289 | sorting the slice in place gives the same list as the Python sort |
| `CandidatesGo.DedupeProbeCandidates` | p2p/wireguard-p2p-client/candidate.go:308-320 | the Go loop gives the same ranked list |
| `CandidatesGo.ChooseInPlace` | p2p/wireguard-p2p-client/candidate.go:259-280 | the Go selection, in place, equals the Python selection on the same normalized input |
| `CandidatesGo.CandidateSignature` | p2p/wireguard-p2p-client/candidate.go:322-328 | the Go signature equals the Python signature |
| `Endpoints.FormatParses` | p2p/wireguard-p2p/linux/candidates.py:48-75 | a formatted endpoint parses back to its host and port |
| `Endpoints.ParseIsIdempotent` | p2p/wireguard-p2p/linux/p2p_agent.py:266-287 | the canonical text parses to itself |
| `Endpoints.ParsesExactly` | p2p/wireguard-p2p/linux/candidates.py:53-75 | exactly which texts are endpoints, and what they denote |
| `CandidateExchange.ValidateCandidates` | p2p/wireguard-p2p/linux/p2p_agent.py:314-351 | the loop that checks a list: error on the first bad entry, the first of every pair, ordered by priority |
| `CandidateExchange.MergeGroups` | p2p/wireguard-p2p/vps/peers_api.py:294-308 | the nested loops of the merge |
| `CandidateExchange.MergeSelects` | p2p/wireguard-p2p/vps/peers_api.py:294-308 | the merge is ordered by priority, has no pair twice, and at most sixteen entries |
| `ExchangeTheorems.AgentTakesExactly` | p2p/wireguard-p2p/linux/p2p_agent.py:314-351 | which entries the agent takes, and as what |
| `ExchangeTheorems.NodeTakesExactly` | p2p/wireguard-p2p/vps/peers_api.py:187-232 | which entries the coordinator takes from a node: private IPv4, global IPv6 and mapped IPv4, never as verified |
| `ExchangeTheorems.AcceptsExactly` | p2p/wireguard-p2p/linux/p2p_agent.py:314-351 | a list is accepted exactly if it has at most sixteen entries and all are taken; what is accepted are the first entries of every pair by falling priority |
| `ExchangeTheorems.AnnouncesExactly` | p2p/wireguard-p2p/vps/peers_api.py:397-405 | the announced LAN address is a private IPv4 address with a valid port |
| `ExchangeTheorems.AdvertisesExactly` | p2p/wireguard-p2p/vps/peers_api.py:895-899 | a node that advertises nothing is given its LAN address |
| `ExchangeTheorems.ObservedExactly` | p2p/wireguard-p2p/vps/peers_api.py:235-262 | the observed and the LAN candidate of an endpoint |
| `ExchangeTheorems.PredictedExactly` | p2p/wireguard-p2p/vps/peers_api.py:265-291 | exactly the valid ports up to two away from a public IPv4 endpoint |
| `ExchangeTheorems.GatheredExactly` | p2p/wireguard-p2p/vps/peers_api.py:488-506 | what an offer is merged from: predictions only without a mapped4 entry |
| `ExchangeTheorems.MergesExactly` | p2p/wireguard-p2p/vps/peers_api.py:294-308 | the first of every pair is in the merge, unless that has sixteen entries that are at least as good |
| `CandidateExchange.NodeAcceptsReadable` | p2p/wireguard-p2p/vps/peers_api.py:187-232 | whatever the coordinator accepts from a node, the agent reads back unchanged |
| `CandidateExchange.ObservationsReadable` | p2p/wireguard-p2p/vps/peers_api.py:235-291 | so it does with LAN, observed and predicted candidates |
| `CandidateExchange.OffersAreAccepted` | p2p/wireguard-p2p/vps/peers_api.py:889-907 | from announcement and advertisement to the agent: the candidates of every offer pass the agent validation exactly as they were sent, unless the node advertised nothing and its LAN address, which is then advertised for it, is unspecified: then the whole list is refused |
| `CandidateExchange.UnspecifiedLanIsRefused` | p2p/wireguard-p2p/vps/peers_api.py:397-405 | the failing input: 0.0.0.0 is a private IPv4 address for the announcement |
| `ReplayCache.NonceStore.ConsumeNonce` | p2p/wireguard-p2p/linux/p2p_agent.py:384-396 | the in-place cache: drop what is too old, reject what is known, evict the oldest when full |
| `ReplayCache.NonceStore.VerifySignedNotification` | p2p/wireguard-p2p/linux/p2p_agent.py:399-420 | only signed requests inside the window reach the cache |
| `ReplayCache.CacheStaysBounded` | p2p/wireguard-p2p/linux/p2p_agent.py:384-396 | no step lets the cache exceed 4096 entries or hold a nonce twice |
| `ReplayCache.VerifyExactly` | p2p/wireguard-p2p/linux/p2p_agent.py:384-420 | accepted exactly if signed, at most 30 seconds off, and not accepted within 60 seconds as far as the cache knows; any other unsigned or late request leaves the cache as it was |
| `ReplayCache.AcceptExactly` | p2p/wireguard-p2p/linux/p2p_agent.py:384-396 | what an accepted request leaves in the cache, and that only an oldest entry is evicted, exactly when 4096 are left |
| `ReplayCache.OnlyGenuineEntries` | p2p/wireguard-p2p/linux/p2p_agent.py:399-420 | over runs from the empty cache every entry belongs to a signed request inside its window |
| `ReplayCache.ReplayIsRejected` | p2p/wireguard-p2p/linux/p2p_agent.py:384-420 | a signed timestamp and nonce is accepted at most once over any run, whatever the order in which stamps are consumed, unless capacity evicted it or a request reached the cache with a stamp more than 60 seconds later |
| `ReplayCache.ReplaySucceedsExactly` | p2p/wireguard-p2p/linux/p2p_agent.py:384-420 | the first replay inside the window gets through if and only if one of the two has happened |
| `ReplayCache.SteadyReplaySucceedsExactly` | p2p/wireguard-p2p/linux/p2p_agent.py:384-420 | with stamps in order only the eviction is left |
| `ReplayCache.OutOfOrderReplay` | p2p/wireguard-p2p/linux/p2p_agent.py:384-404 | the input for the other way: a stamp of 130.5 purges an entry of 70.0, then the replay comes with 130.0 |
| `ReplayCache.EvictionHappens` | p2p/wireguard-p2p/linux/p2p_agent.py:391-394 | a run from the empty cache at whose end a replay is accepted: 4096 other notifications have evicted its nonce |
| `PortMapper.PortMapper.CurrentCandidate` | p2p/wireguard-p2p/linux/portmap.py:304-310 | the mapping that the object hands out |
| `PortMapper.PortMapper.ShouldRefresh` | p2p/wireguard-p2p/linux/portmap.py:312-318 | a refresh is due exactly when the scheduled time has come, with or without a mapping for the key |
| `PortMapper.PortMapper.RecordSuccess` | p2p/wireguard-p2p/linux/portmap.py:351-371 | the stored mapping and its schedule, or nothing for a lifetime of zero |
| `PortMapper.PortMapper.RecordFailure` | p2p/wireguard-p2p/linux/portmap.py:373-381 | a failure for another key forgets the mapping |
| `PortMapper.CurrentIsTheLastSuccess` | p2p/wireguard-p2p/linux/portmap.py:304-381 | over any history a mapping is handed out if and only if the last stored success was for this key, no other key was recorded since, and it still lasts |
| `PortMapper.RefreshLeavesRoom` | p2p/wireguard-p2p/linux/portmap.py:351-371 | the refresh comes before expiry exactly for two seconds or more, and leaves max(15, lifetime/3) exactly for sixteen or more |
| `PortMapper.RefreshExactly` | p2p/wireguard-p2p/linux/portmap.py:351-371 | the scheduled refresh in its three ranges: one second, fifteen seconds before the end, two thirds of the lifetime |
| `PortMapper.FailureExactly` | p2p/wireguard-p2p/linux/portmap.py:373-381 | a failure keeps a mapping of its own key, forgets any other, and waits 60 seconds |
| `PortMapper.NextAttemptIsTheLast` | p2p/wireguard-p2p/linux/portmap.py:351-381 | over any history the next attempt is what the last recorded event sets: the refresh of its lifetime, or 60 seconds after a failure |
| `PortMapCodec.BuildPcpMapRequest` | p2p/wireguard-p2p/linux/portmap.py:65-78 | the request written field by field into the buffer, with the nonce given or drawn, and the error cases |
| `PortMapCodec.PcpRequestFields` | p2p/wireguard-p2p/linux/portmap.py:65-78 | a gateway reads the request by sections 7.1 and 11.1 of RFC 6887, all sixty bytes |
| `PortMapCodec.PcpAcceptsExactly` | p2p/wireguard-p2p/linux/portmap.py:81-103 | exactly which packets are taken for a mapping, and as what |
| `PortMapCodec.PcpRoundTrip` | p2p/wireguard-p2p/linux/portmap.py:81-103 | the success response of sections 7.2 and 11.1 of RFC 6887 to this request parses to what was assigned, or is refused as not public |
| `PortMapCodec.PcpRejectsOtherAnswers` | p2p/wireguard-p2p/linux/portmap.py:81-103 | the answer to another nonce or port is always rejected |
| `PortMapCodec.PcpRejectsOtherProtocols` | p2p/wireguard-p2p/linux/portmap.py:88-90 | no packet with another protocol is accepted |
| `PortMapCodec.NatPmpRoundTrip` | p2p/wireguard-p2p/linux/portmap.py:121-147 | the response of section 3.3 of RFC 6886 parses to the assigned port and lifetime exactly when it is a success for our port |
| `PortMapCodec.NatPmpRequestFields` | p2p/wireguard-p2p/linux/portmap.py:121-122 | a gateway reads the request by section 3.3 of RFC 6886, all twelve bytes |

## Left out

- The graphical clients, tray, updater, bootstrap and installation scripts, and service units: plumbing.
- HTTP, sockets, the `wg` subprocess, JSON persistence and `load_state`, UPnP with SOAP and XML, and the
  discovery of reflexive IPv6 addresses: their results are inputs.
- HMAC, base64 and UUID syntax: a request is signed or not, identifiers are texts.
- The probe concurrency of the Go client: it reads its WireGuard snapshot outside the lock and restarts
  its generation counter with each state, so the theorems about the agent do not carry over.
- The thread pool that sends pushes and removes: in `Network` a due push is sent any number of times while its
  sync runs, answered or not, and a remove may arrive at any time after its session was closed.
- Workers are program counters and not loops, because other threads run between any two of their steps;
  the locked regions inside them are methods of `Agent.Agent`.
- Fields that no decision reads (selected type, endpoint type, start and promotion time, keepalive, the
  candidate list kept in a coordinator session) and all log texts.
- The tables of LAN and node candidates that the coordinator fills from answers, its registry files, push
  statistics and version strings: only easy members.
- Candidates and instance of a delivered offer are arbitrary in `Deployment`, which only makes the statements
  there stronger; `CandidateExchange` and `OfferIntake` are about the candidates.
- StickyTheorems.HeldWhileOpen: takes as a hypothesis that the lease is ahead of every monitor pass;
  `RegularTheorems.RegularSyncsHold` replaces it by the timing of the syncs.
- RegularTheorems.RegularSyncsHold: both sides read one clock, and during a sync that pushes to the agent an offer
  is accepted and the push is acknowledged in time; offers of the session itself may otherwise be lost, repeated,
  reordered, and delayed as far as their signature allows, those of other sessions and removes without any limit.
- LeaseTheorems.LeaseNeverLapses: about pushes that succeed, one server, and one clock for both sides.
- PortMapCodec.PcpRoundTrip: success responses only; error codes of the gateway are not modelled.
- CandidatesGo.ChooseInPlace: starts from the normalized list; Go's normalization of one candidate is not
  modelled.
- Role changes and changes of a node's overlay address during a run.
