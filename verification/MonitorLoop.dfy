/** The monitor's own loop: how long it sleeps between two passes, and what that makes of a stale route. */
module MonitorLoop {
  import opened Basics
  import opened PeerRegions
  import opened AgentMachine
  import opened AgentInvariants
  import opened StalenessTheorems

  const ACTIVE_MONITOR_INTERVAL := 5.0
  const DIRECT_MONITOR_INTERVAL := 20.0
  const IDLE_MONITOR_INTERVAL := 60.0

  predicate AllSettled(states: map<Key, PeerState>) {
    forall k :: k in states ==> states[k].mode == Direct && !states[k].running
  }

  /** `monitor_interval`. */
  function MonitorInterval(states: map<Key, PeerState>): real {
    if states == map[] then IDLE_MONITOR_INTERVAL
    else if AllSettled(states) then DIRECT_MONITOR_INTERVAL
    else ACTIVE_MONITOR_INTERVAL
  }

  /**
   * The agent with its monitor thread: `seen` are the states for which the interval was last chosen, `due` is
   * the end of the sleep, `last` the time stamp of the last pass, complete or not.
   */
  datatype Loop = Loop(w: World, asleep: bool, seen: map<Key, PeerState>, due: real, last: real)

  /** The monitor chooses its interval and goes to sleep, or the agent makes a step. */
  datatype Turn = Sleep | Step(e: Event)

  /**
   * A pass reads the clock after the sleep; it has left its region, and the next sleep has begun, at most
   * `busy` seconds after the sleep was to end.
   */
  predicate TurnEnabled(l: Loop, t: Turn, busy: real) {
    match t
    case Sleep => !l.asleep
    case Step(e) =>
      && Enabled(l.w, e)
      && (e.Monitor? ==> l.asleep && l.due <= e.now)
      && (e.Tick? ==> e.to <= l.due + busy)
  }

  function Turned(l: Loop, t: Turn, busy: real): Loop
    requires TurnEnabled(l, t, busy)
  {
    match t
    case Sleep => l.(asleep := true, seen := l.w.store.states, due := l.w.clock + MonitorInterval(l.w.store.states))
    case Step(e) =>
      if e.Monitor? then l.(w := Next(l.w, e), asleep := false, last := e.now) else l.(w := Next(l.w, e))
  }

  predicate LoopPossible(l: Loop, turns: seq<Turn>, busy: real)
    decreases |turns|
  {
    turns == [] || (TurnEnabled(l, turns[0], busy) && LoopPossible(Turned(l, turns[0], busy), turns[1..], busy))
  }

  function LoopAfter(l: Loop, turns: seq<Turn>, busy: real): Loop
    requires LoopPossible(l, turns, busy)
    decreases |turns|
  {
    if turns == [] then l else LoopAfter(Turned(l, turns[0], busy), turns[1..], busy)
  }

  /** The run of the agent alone. */
  function EventsOf(turns: seq<Turn>): seq<Event> {
    if turns == [] then []
    else (if turns[0].Step? then [turns[0].e] else []) + EventsOf(turns[1..])
  }

  /** The loop chooses its first interval when the agent starts, which counts as a pass over nothing. */
  predicate LoopInitial(l: Loop) {
    Initial(l.w) && !l.asleep && l.w.lastPass == l.last == l.due == l.w.clock
  }

  /** Each sleep is 60 seconds without a state, 20 if every path is direct and unclaimed, and 5 otherwise. */
  lemma SleepsExactly(l: Loop, busy: real)
    requires TurnEnabled(l, Sleep, busy)
    ensures var l' := Turned(l, Sleep, busy);
            && l'.w == l.w && l'.asleep
            && l'.due == l.w.clock + if l.w.store.states == map[] then 60.0
                                     else if forall k :: k in l.w.store.states ==>
                                       l.w.store.states[k].mode == Direct && !l.w.store.states[k].running then 20.0
                                     else 5.0
  {
  }

  /** The last pass is never further back than the interval that was chosen after it and two delays. */
  predicate InRhythm(l: Loop, busy: real) {
    && l.w.clock <= l.due + busy
    && (if l.asleep then l.due <= l.last + busy + MonitorInterval(l.seen) else l.due <= l.last)
  }

  lemma TurnKeepsRhythm(l: Loop, t: Turn, busy: real)
    requires 0.0 <= busy && TurnEnabled(l, t, busy) && InRhythm(l, busy)
    ensures InRhythm(Turned(l, t, busy), busy)
  {
  }

  lemma {:induction false} LoopKeepsRhythm(l: Loop, turns: seq<Turn>, busy: real)
    requires 0.0 <= busy && LoopPossible(l, turns, busy) && InRhythm(l, busy)
    ensures InRhythm(LoopAfter(l, turns, busy), busy)
    ensures Possible(l.w, EventsOf(turns)) && After(l.w, EventsOf(turns)) == LoopAfter(l, turns, busy).w
    decreases |turns|
  {
    if turns != [] {
      TurnKeepsRhythm(l, turns[0], busy);
      LoopKeepsRhythm(Turned(l, turns[0], busy), turns[1..], busy);
      var events, rest := EventsOf(turns), EventsOf(turns[1..]);
      assert if turns[0].Step? then events[0] == turns[0].e && events[1..] == rest else events == rest;
    }
  }

  /**
   * Under the monitor's own rhythm, whenever the last pass was complete, the /32 of every key that has a state
   * and is not being rekeyed rests on a handshake at most 180 seconds, the interval that was chosen last, and
   * the delays old.  That interval is 60 seconds only if there was no state at all, and 20 only if every path
   * was direct.
   */
  lemma RhythmBoundsStaleness(start: Loop, turns: seq<Turn>, busy: real, slack: real, k: Key)
    requires LoopInitial(start) && 0.0 <= busy && LoopPossible(start, turns, busy) && 0.0 <= slack
    requires LoopAfter(start, turns, busy).w.lastPass == LoopAfter(start, turns, busy).last
    requires Possible(start.w, EventsOf(turns)) && !LateSincePass(start.w, EventsOf(turns), k, slack, false)
    requires Covered(At(LoopAfter(start, turns, busy).w.store, k))
    ensures var l := LoopAfter(start, turns, busy);
            l.w.clock - Latest(At(l.w.store, k).peer)
            <= 180.0 + slack + 2.0 * busy
               + if !l.asleep then 0.0
                 else if l.seen == map[] then 60.0
                 else if forall j :: j in l.seen ==> l.seen[j].mode == Direct && !l.seen[j].running then 20.0
                 else 5.0
  {
    var l := LoopAfter(start, turns, busy);
    LoopKeepsRhythm(start, turns, busy);
    var d := 2.0 * busy + if l.asleep then MonitorInterval(l.seen) else 0.0;
    DirectIsNeverStale(start.w, EventsOf(turns), slack, d, k);
  }
}
