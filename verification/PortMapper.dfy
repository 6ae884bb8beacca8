/** The state of the port mapper between refreshes. */
module PortMapper {
  import opened Basics

  const FAILURE_RETRY := 60.0

  /** Local address and internal port. */
  datatype Internal = Internal(ip: string, port: int)

  datatype Mapping = Mapping(internal: Option<Internal>, endpoint: Option<string>, expiresAt: real, nextAttempt: real)

  const UNMAPPED := Mapping(None, None, 0.0, 0.0)

  function Least(a: real, b: real): real {
    if a < b then a else b
  }

  function Greatest(a: real, b: real): real {
    if a < b then b else a
  }

  function RefreshAfter(lifetime: int): real {
    var l := lifetime as real;
    Greatest(1.0, Least(l * 2.0 / 3.0, Greatest(1.0, l - 15.0)))
  }

  /** A zero lifetime raises before anything is stored. */
  function Success(m: Mapping, key: Internal, endpoint: string, lifetime: int, now: real): Mapping {
    if lifetime <= 0 then m
    else Mapping(Some(key), Some(endpoint), now + lifetime as real, now + RefreshAfter(lifetime))
  }

  function Failure(m: Mapping, key: Internal, now: real): Mapping {
    var kept := if m.internal != Some(key) then m.(endpoint := None, expiresAt := 0.0) else m;
    kept.(internal := Some(key), nextAttempt := now + FAILURE_RETRY)
  }

  function Current(m: Mapping, key: Internal, now: real): Option<string> {
    if m.internal != Some(key) || m.endpoint.None? || now >= m.expiresAt then None else m.endpoint
  }

  class PortMapper {
    var endpoint: Option<string>
    var internal: Option<Internal>
    var expiresAt: real
    var nextAttempt: real

    function State(): Mapping
      reads this
    {
      Mapping(internal, endpoint, expiresAt, nextAttempt)
    }

    constructor ()
      ensures State() == UNMAPPED
    {
      endpoint, internal, expiresAt, nextAttempt := None, None, 0.0, 0.0;
    }

    method CurrentCandidate(key: Internal, now: real) returns (found: Option<string>)
      ensures found == Current(State(), key, now)
    {
      if internal != Some(key) || endpoint == None || now >= expiresAt {
        return None;
      }
      found := endpoint;
    }

    method ShouldRefresh(key: Internal, now: real) returns (due: bool)
      ensures due == (now >= nextAttempt)
    {
      if internal != Some(key) || endpoint == None {
        return now >= nextAttempt;
      }
      due := now >= nextAttempt;
    }

    method RecordSuccess(key: Internal, mapped: string, lifetime: int, now: real) returns (stored: bool)
      modifies this
      ensures stored == (lifetime > 0) && State() == Success(old(State()), key, mapped, lifetime, now)
    {
      if lifetime <= 0 {
        return false;
      }
      var refreshAfter := RefreshAfter(lifetime);
      internal := Some(key);
      endpoint := Some(mapped);
      expiresAt := now + lifetime as real;
      nextAttempt := now + refreshAfter;
      stored := true;
    }

    method RecordFailure(key: Internal, now: real)
      modifies this
      ensures State() == Failure(old(State()), key, now)
    {
      if internal != Some(key) {
        endpoint := None;
        expiresAt := 0.0;
      }
      internal := Some(key);
      nextAttempt := now + FAILURE_RETRY;
    }
  }

  // ---------------------------------------------------------------- runs

  datatype Event =
    | Succeeded(key: Internal, endpoint: string, lifetime: int, at: real)
    | Failed(key: Internal, at: real)

  function Record(m: Mapping, e: Event): Mapping {
    match e
    case Succeeded(key, endpoint, lifetime, at) => Success(m, key, endpoint, lifetime, at)
    case Failed(key, at) => Failure(m, key, at)
  }

  function RecordAll(run: seq<Event>): Mapping {
    if run == [] then UNMAPPED else Record(RecordAll(run[..|run| - 1]), run[|run| - 1])
  }

  /** The event stores nothing for another key and replaces no mapping. */
  predicate LeavesMapping(e: Event, key: Internal) {
    match e
    case Succeeded(_, _, lifetime, _) => lifetime <= 0
    case Failed(k, _) => k == key
  }

  /** Event `i` obtained this mapping for `key`, and nothing recorded since replaces it. */
  predicate ComesFrom(run: seq<Event>, i: nat, key: Internal, endpoint: string, now: real)
    requires i < |run|
  {
    && run[i].Succeeded? && run[i].key == key && run[i].endpoint == endpoint && run[i].lifetime > 0
    && now < run[i].at + run[i].lifetime as real
    && forall j :: i < j < |run| ==> LeavesMapping(run[j], key)
  }

  /**
   * A mapping is handed out exactly if the last stored success was for this key, no other key was
   * recorded since, and its lifetime has not run out.
   */
  lemma {:induction false} CurrentIsTheLastSuccess(run: seq<Event>, key: Internal, endpoint: string, now: real)
    ensures Current(RecordAll(run), key, now) == Some(endpoint)
            <==> exists i :: 0 <= i < |run| && ComesFrom(run, i, key, endpoint, now)
    decreases |run|
  {
    if run != [] {
      var n := |run| - 1;
      var front, e := run[..n], run[n];
      CurrentIsTheLastSuccess(front, key, endpoint, now);
      if LeavesMapping(e, key) {
        assert Current(RecordAll(run), key, now) == Current(RecordAll(front), key, now);
        Extend(front, e, key, endpoint, now);
        assert front + [e] == run;
      } else {
        assert forall i :: 0 <= i < n ==> !ComesFrom(run, i, key, endpoint, now);
        assert ComesFrom(run, n, key, endpoint, now) <==> Current(RecordAll(run), key, now) == Some(endpoint);
      }
    }
  }

  lemma Extend(front: seq<Event>, e: Event, key: Internal, endpoint: string, now: real)
    requires LeavesMapping(e, key)
    ensures var run := front + [e];
            (exists i :: 0 <= i < |run| && ComesFrom(run, i, key, endpoint, now))
            <==> exists i :: 0 <= i < |front| && ComesFrom(front, i, key, endpoint, now)
  {
    var run := front + [e];
    if i :| 0 <= i < |run| && ComesFrom(run, i, key, endpoint, now) {
      assert i < |front|;
      assert forall j :: i < j < |front| ==> front[j] == run[j];
      assert ComesFrom(front, i, key, endpoint, now);
    }
    if i :| 0 <= i < |front| && ComesFrom(front, i, key, endpoint, now) {
      assert forall j :: i < j < |run| ==> LeavesMapping(run[j], key);
      assert ComesFrom(run, i, key, endpoint, now);
    }
  }

  /**
   * The refresh is scheduled before the mapping ends exactly for lifetimes of at least two seconds;
   * it leaves fifteen seconds, and a third of the lifetime, exactly for sixteen seconds or more.
   */
  lemma RefreshLeavesRoom(m: Mapping, key: Internal, endpoint: string, lifetime: int, now: real)
    requires lifetime > 0
    ensures var s := Success(m, key, endpoint, lifetime, now);
            && (s.nextAttempt < s.expiresAt <==> lifetime >= 2)
            && (s.expiresAt - s.nextAttempt >= Greatest(15.0, lifetime as real / 3.0) <==> lifetime >= 16)
            && now + 1.0 <= s.nextAttempt
  {
  }

  /** The refresh of a stored mapping, in three ranges of its lifetime. */
  lemma RefreshExactly(m: Mapping, key: Internal, endpoint: string, lifetime: int, now: real)
    requires lifetime > 0
    ensures var s := Success(m, key, endpoint, lifetime, now);
            && s.internal == Some(key) && s.endpoint == Some(endpoint) && s.expiresAt == now + lifetime as real
            && s.nextAttempt == now + if lifetime <= 16 then 1.0
                                      else if lifetime <= 45 then (lifetime - 15) as real
                                      else lifetime as real * 2.0 / 3.0
  {
  }

  /** A failure keeps a mapping of its own key and forgets any other. */
  lemma FailureExactly(m: Mapping, key: Internal, now: real)
    ensures Failure(m, key, now)
            == if m.internal == Some(key) then Mapping(m.internal, m.endpoint, m.expiresAt, now + 60.0)
               else Mapping(Some(key), None, 0.0, now + 60.0)
  {
  }

  /** The event sets the time of the next attempt. */
  predicate Schedules(e: Event) {
    e.Failed? || e.lifetime > 0
  }

  /** What it sets it to: 60 seconds after a failure, or what the lifetime gives. */
  function Scheduled(e: Event): real
    requires Schedules(e)
  {
    if e.Failed? then e.at + 60.0
    else e.at + if e.lifetime <= 16 then 1.0
                else if e.lifetime <= 45 then (e.lifetime - 15) as real
                else e.lifetime as real * 2.0 / 3.0
  }

  /** Over any history, the next attempt is the one that the last recorded event sets, whatever its key. */
  lemma {:induction false} NextAttemptIsTheLast(run: seq<Event>, i: nat)
    requires i < |run| && Schedules(run[i]) && forall j :: i < j < |run| ==> !Schedules(run[j])
    ensures RecordAll(run).nextAttempt == Scheduled(run[i]) && RecordAll(run).internal == Some(run[i].key)
    decreases |run|
  {
    var front, e := run[..|run| - 1], run[|run| - 1];
    if i == |run| - 1 {
      if e.Succeeded? { RefreshExactly(RecordAll(front), e.key, e.endpoint, e.lifetime, e.at); }
    } else {
      NextAttemptIsTheLast(front, i);
    }
  }
}
