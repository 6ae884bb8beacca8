/** The replay protection of signed notifications: a bounded dictionary of recent nonces. */
module ReplayCache {
  import opened Basics

  const NOTIFICATION_MAX_SKEW := 30.0
  const NONCE_TTL := 60.0
  const MAX_SEEN_NONCES := 4096

  /** The dictionary in its insertion order. */
  datatype Entry = Entry(nonce: string, at: real)

  type Cache = seq<Entry>

  predicate Holds(s: Cache, nonce: string) {
    exists i :: 0 <= i < |s| && s[i].nonce == nonce
  }

  function Purge(s: Cache, cutoff: real): Cache {
    if s == [] then [] else (if s[0].at < cutoff then [] else [s[0]]) + Purge(s[1..], cutoff)
  }

  /** The index of the first of the oldest entries: `min(d, key=d.get)`. */
  function Oldest(s: Cache): (i: nat)
    requires s != []
    ensures i < |s|
    ensures forall j :: 0 <= j < |s| ==> s[i].at <= s[j].at
    ensures forall j :: 0 <= j < i ==> s[i].at < s[j].at
  {
    if |s| == 1 then 0
    else
      var i := 1 + Oldest(s[1..]);
      if s[0].at <= s[i].at then 0 else i
  }

  function Without(s: Cache, i: nat): Cache
    requires i < |s|
  {
    s[..i] + s[i + 1..]
  }

  datatype Verdict = Verdict(cache: Cache, accepted: bool, evicted: Option<string>)

  /** The tail of `consume_nonce`, behind the purge. */
  function Admit(p: Cache, nonce: string, now: real): Verdict {
    if Holds(p, nonce) then Verdict(p, false, None)
    else if |p| >= MAX_SEEN_NONCES then
      var o := Oldest(p);
      Verdict(Without(p, o) + [Entry(nonce, now)], true, Some(p[o].nonce))
    else Verdict(p + [Entry(nonce, now)], true, None)
  }

  /** `consume_nonce`. */
  function Consume(s: Cache, nonce: string, now: real): Verdict {
    Admit(Purge(s, now - NONCE_TTL), nonce, now)
  }

  /**
   * A notification; `signed` says that nonce and signature are well formed and match.  `now` was read before
   * the lock of the cache was taken, so requests may be consumed in another order than that of their stamps.
   */
  datatype Request = Request(timestamp: int, nonce: string, signed: bool, now: real)

  predicate WithinSkew(timestamp: int, now: real) {
    -NOTIFICATION_MAX_SKEW <= now - timestamp as real <= NOTIFICATION_MAX_SKEW
  }

  predicate InTime(r: Request) {
    WithinSkew(r.timestamp, r.now)
  }

  /** `verify_signed_notification`. */
  function Verify(s: Cache, r: Request): Verdict {
    if !InTime(r) || !r.signed then Verdict(s, false, None) else Consume(s, r.nonce, r.now)
  }

  /** The comprehension that keeps what is young enough. */
  method Prune(items: Cache, cutoff: real) returns (kept: Cache)
    ensures kept == Purge(items, cutoff)
  {
    kept := [];
    assert items[0..] == items;
    for i := 0 to |items|
      invariant kept + Purge(items[i..], cutoff) == Purge(items, cutoff)
    {
      assert items[i..][0] == items[i] && items[i..][1..] == items[i + 1..];
      PurgeHead(items[i..], kept, cutoff);
      if !(items[i].at < cutoff) {
        kept := kept + [items[i]];
      }
    }
    assert Purge(items[|items|..], cutoff) == [];
  }

  lemma PurgeHead(items: Cache, kept: Cache, cutoff: real)
    requires items != []
    ensures kept + Purge(items, cutoff)
         == (if items[0].at < cutoff then kept else kept + [items[0]]) + Purge(items[1..], cutoff)
  {
    var rest := Purge(items[1..], cutoff);
    assert kept + ([items[0]] + rest) == (kept + [items[0]]) + rest;
    assert [] + rest == rest;
  }

  class NonceStore {
    var seen: Cache

    constructor ()
      ensures seen == []
    {
      seen := [];
    }

    method ConsumeNonce(nonce: string, now: real) returns (accepted: bool)
      modifies this
      ensures var v := Consume(old(seen), nonce, now); accepted == v.accepted && seen == v.cache
    {
      seen := Prune(seen, now - NONCE_TTL);
      if Holds(seen, nonce) {
        return false;
      }
      if |seen| >= MAX_SEEN_NONCES {
        var oldest := FindOldest();
        seen := Without(seen, oldest);
      }
      seen := seen + [Entry(nonce, now)];
      accepted := true;
    }

    method FindOldest() returns (oldest: nat)
      requires seen != []
      ensures oldest == Oldest(seen)
    {
      oldest := 0;
      for i := 1 to |seen|
        invariant oldest < i
        invariant forall j :: 0 <= j < i ==> seen[oldest].at <= seen[j].at
        invariant forall j :: 0 <= j < oldest ==> seen[oldest].at < seen[j].at
      {
        if seen[i].at < seen[oldest].at {
          oldest := i;
        }
      }
    }

    method VerifySignedNotification(r: Request) returns (accepted: bool)
      modifies this
      ensures var v := Verify(old(seen), r); accepted == v.accepted && seen == v.cache
    {
      if !InTime(r) || !r.signed {
        return false;
      }
      accepted := ConsumeNonce(r.nonce, r.now);
    }
  }

  // ---------------------------------------------------------------- bounds

  predicate Distinct(s: Cache) {
    forall i, j :: 0 <= i < j < |s| ==> s[i].nonce != s[j].nonce
  }

  lemma {:induction false} PurgeSelects(s: Cache, cutoff: real)
    ensures var p := Purge(s, cutoff);
            && |p| <= |s| && (Distinct(s) ==> Distinct(p))
            && (forall e :: e in p <==> e in s && e.at >= cutoff)
  {
    if s != [] { PurgeSelects(s[1..], cutoff); }
  }

  lemma HoldsIsMembership(s: Cache, nonce: string)
    ensures Holds(s, nonce) <==> exists e :: e in s && e.nonce == nonce
  {
  }

  lemma AdmitMembers(p: Cache, nonce: string, now: real, e: Entry)
    ensures var v := Admit(p, nonce, now);
            && (e in v.cache ==> e in p || (v.accepted && e == Entry(nonce, now)))
            && (e in p && v.evicted != Some(e.nonce) ==> e in v.cache)
            && (Distinct(p) && v.evicted == Some(e.nonce) && e.nonce != nonce ==> e !in v.cache)
  {
  }

  lemma ConsumeMembers(s: Cache, nonce: string, now: real, e: Entry)
    ensures var v := Consume(s, nonce, now);
            && (e in v.cache ==> e in s || (v.accepted && e == Entry(nonce, now)))
            && (e in s && e.at >= now - NONCE_TTL && v.evicted != Some(e.nonce) ==> e in v.cache)
            && (Distinct(s) && v.evicted == Some(e.nonce) && e.nonce != nonce ==> e !in v.cache)
  {
    PurgeSelects(s, now - NONCE_TTL);
    var p := Purge(s, now - NONCE_TTL);
    assert e in p <==> e in s && e.at >= now - NONCE_TTL;
    AdmitMembers(p, nonce, now, e);
  }

  /** What one request does to the members of the cache. */
  lemma VerifyMembers(s: Cache, r: Request, e: Entry)
    ensures var v := Verify(s, r);
            && (e in v.cache ==> e in s || (v.accepted && e == Entry(r.nonce, r.now)))
            && (e in s && (InTime(r) && r.signed ==> e.at >= r.now - NONCE_TTL) && v.evicted != Some(e.nonce) ==>
                  e in v.cache)
            && (Distinct(s) && v.evicted == Some(e.nonce) && e.nonce != r.nonce ==> e !in v.cache)
  {
    if InTime(r) && r.signed { ConsumeMembers(s, r.nonce, r.now, e); }
  }

  /** A nonce is in the cache once, and the cache never exceeds its capacity, on any run. */
  lemma CacheStaysBounded(s: Cache, r: Request)
    requires Distinct(s) && |s| <= MAX_SEEN_NONCES
    ensures Distinct(Verify(s, r).cache) && |Verify(s, r).cache| <= MAX_SEEN_NONCES
  {
    PurgeSelects(s, r.now - NONCE_TTL);
    AdmitStaysBounded(Purge(s, r.now - NONCE_TTL), r.nonce, r.now);
  }

  lemma AdmitStaysBounded(p: Cache, nonce: string, now: real)
    requires Distinct(p) && |p| <= MAX_SEEN_NONCES
    ensures Distinct(Admit(p, nonce, now).cache) && |Admit(p, nonce, now).cache| <= MAX_SEEN_NONCES
  {
  }

  // ---------------------------------------------------------------- runs

  function AfterAll(s: Cache, run: seq<Request>): Cache
    decreases |run|
  {
    if run == [] then s else AfterAll(Verify(s, run[0]).cache, run[1..])
  }

  /** Capacity eviction hits `nonce` somewhere in the run. */
  predicate Evicts(s: Cache, run: seq<Request>, nonce: string)
    decreases |run|
  {
    run != [] && (Verify(s, run[0]).evicted == Some(nonce) || Evicts(Verify(s, run[0]).cache, run[1..], nonce))
  }

  /** A request of the run reaches the cache with a stamp so late that it purges what was stored at `at`. */
  predicate Outruns(run: seq<Request>, at: real)
    decreases |run|
  {
    run != [] && ((InTime(run[0]) && run[0].signed && at < run[0].now - NONCE_TTL) || Outruns(run[1..], at))
  }

  lemma {:induction false} EntryStays(s: Cache, e: Entry, run: seq<Request>)
    requires e in s && !Outruns(run, e.at) && !Evicts(s, run, e.nonce)
    ensures e in AfterAll(s, run)
    decreases |run|
  {
    if run != [] {
      VerifyMembers(s, run[0], e);
      EntryStays(Verify(s, run[0]).cache, e, run[1..]);
    }
  }

  /** An accepted request leaves its entry. */
  lemma AcceptedLeavesEntry(s: Cache, r: Request)
    requires Verify(s, r).accepted
    ensures Entry(r.nonce, r.now) in Verify(s, r).cache
  {
  }

  /**
   * A signed (timestamp, nonce) is not accepted a second time, whatever comes in between and in whatever
   * order stamps are consumed, unless capacity evicted its nonce or a request outran its entry.
   */
  lemma ReplayIsRejected(s: Cache, first: Request, between: seq<Request>, second: Request)
    requires Verify(s, first).accepted
    requires second.nonce == first.nonce && second.timestamp == first.timestamp
    requires !Evicts(Verify(s, first).cache, between, first.nonce) && !Outruns(between, first.now)
    ensures !Verify(AfterAll(Verify(s, first).cache, between), second).accepted
  {
    if InTime(second) {
      var e, s1 := Entry(first.nonce, first.now), Verify(s, first).cache;
      AcceptedLeavesEntry(s, first);
      EntryStays(s1, e, between);
      HeldIsRejected(AfterAll(s1, between), e, second);
    }
  }

  lemma YoungStays(s: Cache, cutoff: real, e: Entry)
    requires e in s && e.at >= cutoff
    ensures Holds(Purge(s, cutoff), e.nonce)
  {
    var p := Purge(s, cutoff);
    PurgeSelects(s, cutoff);
    assert e in p;
    var i :| 0 <= i < |p| && p[i] == e;
    assert p[i].nonce == e.nonce;
  }

  lemma HeldIsRefused(s: Cache, e: Entry, now: real)
    requires e in s && e.at >= now - NONCE_TTL
    ensures !Consume(s, e.nonce, now).accepted
  {
    var p := Purge(s, now - NONCE_TTL);
    YoungStays(s, now - NONCE_TTL, e);
    assert Admit(p, e.nonce, now) == Verdict(p, false, None);
  }

  lemma HeldIsRejected(s: Cache, e: Entry, r: Request)
    requires e in s && e.nonce == r.nonce && e.at >= r.now - NONCE_TTL
    ensures !Verify(s, r).accepted
  {
    HeldIsRefused(s, e, r.now);
    assert Verify(s, r) == if !InTime(r) || !r.signed then Verdict(s, false, None) else Consume(s, e.nonce, r.now);
  }

  lemma UnheldIsAccepted(s: Cache, r: Request)
    requires !Holds(s, r.nonce) && InTime(r) && r.signed
    ensures Verify(s, r).accepted
  {
    PurgeSelects(s, r.now - NONCE_TTL);
    HoldsIsMembership(s, r.nonce);
    HoldsIsMembership(Purge(s, r.now - NONCE_TTL), r.nonce);
  }

  // ---------------------------------------------------------------- and only then

  lemma StepForgets(s: Cache, r: Request, nonce: string)
    requires r.nonce != nonce && !Holds(s, nonce)
    ensures !Holds(Verify(s, r).cache, nonce)
  {
    HoldsIsMembership(s, nonce);
    HoldsIsMembership(Verify(s, r).cache, nonce);
    forall e | e in Verify(s, r).cache ensures e.nonce != nonce {
      VerifyMembers(s, r, e);
    }
  }

  lemma EvictedIsGone(s: Cache, r: Request, nonce: string)
    requires Distinct(s) && r.nonce != nonce && Verify(s, r).evicted == Some(nonce)
    ensures !Holds(Verify(s, r).cache, nonce)
  {
    HoldsIsMembership(Verify(s, r).cache, nonce);
    forall e | e in Verify(s, r).cache ensures e.nonce != nonce {
      VerifyMembers(s, r, e);
    }
  }

  lemma {:induction false} StaysForgotten(s: Cache, run: seq<Request>, nonce: string)
    requires !Holds(s, nonce) && forall i :: 0 <= i < |run| ==> run[i].nonce != nonce
    ensures !Holds(AfterAll(s, run), nonce)
    decreases |run|
  {
    if run != [] {
      StepForgets(s, run[0], nonce);
      StaysForgotten(Verify(s, run[0]).cache, run[1..], nonce);
    }
  }

  lemma {:induction false} EvictionForgets(s: Cache, run: seq<Request>, nonce: string)
    requires Distinct(s) && |s| <= MAX_SEEN_NONCES && Evicts(s, run, nonce)
    requires forall i :: 0 <= i < |run| ==> run[i].nonce != nonce
    ensures !Holds(AfterAll(s, run), nonce)
    decreases |run|
  {
    CacheStaysBounded(s, run[0]);
    if Verify(s, run[0]).evicted == Some(nonce) {
      EvictedIsGone(s, run[0], nonce);
      StaysForgotten(Verify(s, run[0]).cache, run[1..], nonce);
    } else {
      EvictionForgets(Verify(s, run[0]).cache, run[1..], nonce);
    }
  }

  lemma OutrunIsPurged(s: Cache, r: Request, nonce: string, at: real)
    requires r.nonce != nonce && InTime(r) && r.signed && at < r.now - NONCE_TTL
    requires forall e :: e in s && e.nonce == nonce ==> e.at == at
    ensures !Holds(Verify(s, r).cache, nonce)
  {
    var p := Purge(s, r.now - NONCE_TTL);
    PurgeSelects(s, r.now - NONCE_TTL);
    HoldsIsMembership(Verify(s, r).cache, nonce);
    forall e | e in Verify(s, r).cache ensures e.nonce != nonce {
      AdmitMembers(p, r.nonce, r.now, e);
    }
  }

  lemma {:induction false} OutrunForgets(s: Cache, run: seq<Request>, nonce: string, at: real)
    requires Outruns(run, at) && (forall i :: 0 <= i < |run| ==> run[i].nonce != nonce)
    requires forall e :: e in s && e.nonce == nonce ==> e.at == at
    ensures !Holds(AfterAll(s, run), nonce)
    decreases |run|
  {
    var s1 := Verify(s, run[0]).cache;
    if InTime(run[0]) && run[0].signed && at < run[0].now - NONCE_TTL {
      OutrunIsPurged(s, run[0], nonce, at);
      StaysForgotten(s1, run[1..], nonce);
    } else {
      forall e | e in s1 && e.nonce == nonce ensures e.at == at {
        VerifyMembers(s, run[0], e);
      }
      OutrunForgets(s1, run[1..], nonce, at);
    }
  }

  /** A cache with distinct nonces holds an accepted request under its own stamp only. */
  lemma AcceptedStamp(s: Cache, r: Request, e: Entry)
    requires Distinct(s) && |s| <= MAX_SEEN_NONCES && Verify(s, r).accepted
    requires e in Verify(s, r).cache && e.nonce == r.nonce
    ensures e.at == r.now
  {
    var c := Verify(s, r).cache;
    CacheStaysBounded(s, r);
    AcceptedLeavesEntry(s, r);
    var i :| 0 <= i < |c| && c[i] == e;
    var j :| 0 <= j < |c| && c[j] == Entry(r.nonce, r.now);
    assert i == j;
  }

  /**
   * The first replay of an accepted notification gets through exactly if its nonce was evicted, or a
   * request in between reached the cache with a stamp more than 60 seconds after that of the first one.
   */
  lemma {:induction false} ReplaySucceedsExactly(s: Cache, first: Request, between: seq<Request>, second: Request)
    requires Distinct(s) && |s| <= MAX_SEEN_NONCES && Verify(s, first).accepted
    requires second.nonce == first.nonce && second.timestamp == first.timestamp && second.signed && InTime(second)
    requires forall i :: 0 <= i < |between| ==> between[i].nonce != first.nonce
    ensures Verify(AfterAll(Verify(s, first).cache, between), second).accepted
            <==> Evicts(Verify(s, first).cache, between, first.nonce) || Outruns(between, first.now)
  {
    var s1 := Verify(s, first).cache;
    CacheStaysBounded(s, first);
    if Evicts(s1, between, first.nonce) {
      EvictionForgets(s1, between, first.nonce);
      UnheldIsAccepted(AfterAll(s1, between), second);
    } else if Outruns(between, first.now) {
      forall e | e in s1 && e.nonce == first.nonce ensures e.at == first.now {
        AcceptedStamp(s, first, e);
      }
      OutrunForgets(s1, between, first.nonce, first.now);
      UnheldIsAccepted(AfterAll(s1, between), second);
    } else {
      ReplayIsRejected(s, first, between, second);
    }
  }

  /** No stamp of the run is later than `now`. */
  predicate NoneLater(run: seq<Request>, now: real) {
    forall i :: 0 <= i < |run| ==> run[i].now <= now
  }

  /** If no stamp in between is later than that of the replay, nothing outruns the entry. */
  lemma {:induction false} NothingOutruns(between: seq<Request>, first: Request, second: Request)
    requires InTime(first) && InTime(second) && second.timestamp == first.timestamp && NoneLater(between, second.now)
    ensures !Outruns(between, first.now)
    decreases |between|
  {
    if between != [] { NothingOutruns(between[1..], first, second); }
  }

  /** So with stamps consumed in order, the first replay gets through exactly if its nonce was evicted. */
  lemma SteadyReplaySucceedsExactly(s: Cache, first: Request, between: seq<Request>, second: Request)
    requires Distinct(s) && |s| <= MAX_SEEN_NONCES && Verify(s, first).accepted
    requires second.nonce == first.nonce && second.timestamp == first.timestamp && second.signed && InTime(second)
    requires (forall i :: 0 <= i < |between| ==> between[i].nonce != first.nonce) && NoneLater(between, second.now)
    ensures Verify(AfterAll(Verify(s, first).cache, between), second).accepted
            <==> Evicts(Verify(s, first).cache, between, first.nonce)
  {
    NothingOutruns(between, first, second);
    ReplaySucceedsExactly(s, first, between, second);
  }

  /**
   * The failing input: stamps 130 and 130.5 are consumed the other way round, and the notification that was
   * accepted at 70 is accepted again, without any eviction.
   */
  lemma OutOfOrderReplay(nonce: string, other: string)
    requires nonce != other
    ensures var first, second := Request(100, nonce, true, 70.0), Request(100, nonce, true, 130.0);
            var s1 := Verify([], first).cache;
            var r := Request(130, other, true, 130.5);
            && Verify([], first).accepted && Verify(s1, r).accepted && !Evicts(s1, [r], nonce)
            && Verify(AfterAll(s1, [r]), second).accepted
  {
    var first, second := Request(100, nonce, true, 70.0), Request(100, nonce, true, 130.0);
    var s1 := Verify([], first).cache;
    var r := Request(130, other, true, 130.5);
    UnheldIsAccepted([], first);
    assert Purge([], 10.0) == [] && s1 == [Entry(nonce, 70.0)];
    assert s1[1..] == [] && Purge(s1, 70.5) == [];
    assert Verify(s1, r).cache == [Entry(other, 130.5)];
    assert [r][1..] == [];
    assert Outruns([r], first.now);
    assert !Evicts(s1, [r], nonce);
    ReplaySucceedsExactly([], first, [r], second);
  }

  // ---------------------------------------------------------------- what gets in

  /** Signed, and stamped at most 30 seconds away from the clock that was read. */
  predicate Genuine(r: Request) {
    r.signed && -30.0 <= r.now - r.timestamp as real <= 30.0
  }

  /** The nonce was accepted in the last 60 seconds, as far as the cache knows. */
  predicate Recent(s: Cache, nonce: string, now: real) {
    exists e :: e in s && e.nonce == nonce && now - e.at <= 60.0
  }

  /** No entry that is at most 60 seconds old is older than one with this nonce. */
  predicate OldestRecent(s: Cache, nonce: string, now: real) {
    exists o :: o in s && o.nonce == nonce && now - o.at <= 60.0 && NoneOlder(s, o.at, now)
  }

  predicate NoneOlder(s: Cache, at: real, now: real) {
    forall e :: e in s && now - e.at <= 60.0 ==> at <= e.at
  }

  /** A new nonce is admitted, and only an oldest entry makes room for it. */
  lemma AdmitExactly(p: Cache, nonce: string, now: real)
    requires Distinct(p) && |p| <= 4096 && !Holds(p, nonce)
    ensures var v := Admit(p, nonce, now);
            && v.accepted && (v.evicted.Some? <==> |p| == 4096)
            && (forall e :: e in v.cache <==> e == Entry(nonce, now) || (e in p && v.evicted != Some(e.nonce)))
            && (v.evicted.Some? ==> exists o :: o in p && o.nonce == v.evicted.value && forall e :: e in p ==> o.at <= e.at)
  {
    if |p| == 4096 {
      var i := Oldest(p);
      var o := p[i];
      assert forall e :: e in p ==> o.at <= e.at;
      forall e ensures e in Without(p, i) <==> e in p && e.nonce != o.nonce {
        WithoutMembers(p, i, e);
      }
    }
  }

  lemma WithoutMembers(p: Cache, i: nat, e: Entry)
    requires i < |p| && Distinct(p)
    ensures e in Without(p, i) <==> e in p && e.nonce != p[i].nonce
  {
    if e in p && e.nonce != p[i].nonce {
      var j :| 0 <= j < |p| && p[j] == e;
      assert Without(p, i)[if j < i then j else j - 1] == e;
    }
    if e in Without(p, i) {
      var j :| 0 <= j < |Without(p, i)| && Without(p, i)[j] == e;
      assert e == p[if j < i then j else j + 1];
    }
  }

  /** The entries that are at most 60 seconds old. */
  lemma PurgeExactly(s: Cache, now: real, nonce: string)
    requires Distinct(s)
    ensures var p := Purge(s, now - 60.0);
            && Distinct(p) && |p| <= |s| && (forall e :: e in p <==> e in s && now - e.at <= 60.0)
            && (Holds(p, nonce) <==> Recent(s, nonce, now))
  {
    PurgeSelects(s, now - 60.0);
    HoldsIsMembership(Purge(s, now - 60.0), nonce);
  }

  lemma VerifyIs(s: Cache, r: Request)
    ensures Verify(s, r) == if Genuine(r) then Admit(Purge(s, r.now - 60.0), r.nonce, r.now) else Verdict(s, false, None)
  {
  }

  /**
   * A request is accepted exactly if it is genuine and its nonce is not recent.  One that is not genuine leaves
   * the cache as it was; a genuine one purges it, and adds its entry if it is accepted, in place of an oldest one
   * if there are 4096.
   */
  lemma VerifyExactly(s: Cache, r: Request)
    requires |s| <= 4096 && Distinct(s)
    ensures var v := Verify(s, r);
            && (v.accepted <==> Genuine(r) && !Recent(s, r.nonce, r.now))
            && (!Genuine(r) ==> v == Verdict(s, false, None))
            && (Genuine(r) && Recent(s, r.nonce, r.now) ==>
                  v.evicted == None && forall e :: e in v.cache <==> e in s && r.now - e.at <= 60.0)
  {
    VerifyIs(s, r);
    PurgeExactly(s, r.now, r.nonce);
    var p := Purge(s, r.now - 60.0);
    if !Holds(p, r.nonce) { AdmitExactly(p, r.nonce, r.now); }
  }

  /** What an accepted request leaves in the cache, and what it evicts. */
  lemma AcceptExactly(s: Cache, r: Request)
    requires |s| <= 4096 && Distinct(s) && Verify(s, r).accepted
    ensures var v := Verify(s, r);
            && (forall e :: e in v.cache <==>
                  (e == Entry(r.nonce, r.now) || (e in s && r.now - e.at <= 60.0 && v.evicted != Some(e.nonce))))
            && (v.evicted.Some? <==> |Purge(s, r.now - 60.0)| == 4096)
            && (v.evicted.Some? ==> OldestRecent(s, v.evicted.value, r.now))
  {
    var p, v := Purge(s, r.now - 60.0), Verify(s, r);
    VerifyExactly(s, r);
    VerifyIs(s, r);
    PurgeExactly(s, r.now, r.nonce);
    AdmitExactly(p, r.nonce, r.now);
    if v.evicted.Some? {
      var o :| o in p && o.nonce == v.evicted.value && forall e :: e in p ==> o.at <= e.at;
      assert NoneOlder(s, o.at, r.now);
    }
  }

  /** The entry belongs to a genuine request of the run. */
  predicate FromGenuine(run: seq<Request>, e: Entry) {
    exists i :: 0 <= i < |run| && Genuine(run[i]) && run[i].nonce == e.nonce && run[i].now == e.at
  }

  lemma {:induction false} RunIsGenuine(s: Cache, run: seq<Request>, e: Entry)
    requires e in AfterAll(s, run)
    ensures e in s || FromGenuine(run, e)
    decreases |run|
  {
    if run != [] {
      var s1 := Verify(s, run[0]).cache;
      RunIsGenuine(s1, run[1..], e);
      if e in s1 {
        VerifyMembers(s, run[0], e);
        if e !in s { assert Genuine(run[0]) && run[0].nonce == e.nonce && run[0].now == e.at; }
      } else {
        var i :| 0 <= i < |run[1..]| && Genuine(run[1..][i]) && run[1..][i].nonce == e.nonce && run[1..][i].now == e.at;
        assert run[i + 1] == run[1..][i];
      }
    }
  }

  /** From the empty cache, whatever arrives, every entry belongs to a signed request inside its window. */
  lemma OnlyGenuineEntries(run: seq<Request>, e: Entry)
    requires e in AfterAll([], run)
    ensures FromGenuine(run, e)
  {
    RunIsGenuine([], run, e);
  }

  // ---------------------------------------------------------------- eviction does happen

  /** A notification of a flood at time 0. */
  function Notice(nonce: string): Request {
    Request(0, nonce, true, 0.0)
  }

  function Flood(names: seq<string>): seq<Request> {
    seq(|names|, i requires 0 <= i < |names| => Notice(names[i]))
  }

  function Filled(names: seq<string>): Cache {
    seq(|names|, i requires 0 <= i < |names| => Entry(names[i], 0.0))
  }

  predicate AllDiffer(names: seq<string>) {
    forall i, j :: 0 <= i < j < |names| ==> names[i] != names[j]
  }

  lemma {:induction false} AfterSnoc(s: Cache, run: seq<Request>, r: Request)
    ensures AfterAll(s, run + [r]) == Verify(AfterAll(s, run), r).cache
    decreases |run|
  {
    if run == [] {
      assert run + [r] == [r] && [r][1..] == [];
    } else {
      assert (run + [r])[1..] == run[1..] + [r];
      AfterSnoc(Verify(s, run[0]).cache, run[1..], r);
    }
  }

  /** A new nonce: appended, in place of the oldest one if the cache is full. */
  lemma AdmitNew(p: Cache, nonce: string, at: real)
    requires |p| <= MAX_SEEN_NONCES && !Holds(p, nonce) && forall i :: 0 <= i < |p| ==> p[i].at == at
    ensures Admit(p, nonce, at).cache == (if |p| < MAX_SEEN_NONCES then p else p[1..]) + [Entry(nonce, at)]
  {
    if |p| == MAX_SEEN_NONCES {
      assert Oldest(p) == 0;
      assert Without(p, 0) == p[1..];
    }
  }

  lemma NewIsAppended(p: Cache, r: Request)
    requires |p| <= MAX_SEEN_NONCES && !Holds(p, r.nonce) && InTime(r) && r.signed
    requires forall i :: 0 <= i < |p| ==> p[i].at == r.now
    ensures Verify(p, r).cache == (if |p| < MAX_SEEN_NONCES then p else p[1..]) + [Entry(r.nonce, r.now)]
  {
    NothingPurged(p, r.now - NONCE_TTL);
    AdmitNew(p, r.nonce, r.now);
    assert Verify(p, r) == Admit(p, r.nonce, r.now);
  }

  lemma FilledSnoc(names: seq<string>, name: string)
    ensures Filled(names + [name]) == Filled(names) + [Entry(name, 0.0)]
    ensures Flood(names + [name]) == Flood(names) + [Notice(name)]
    ensures name !in names ==> !Holds(Filled(names), name)
  {
  }

  lemma {:induction false} FloodFills(names: seq<string>)
    requires |names| <= MAX_SEEN_NONCES && AllDiffer(names)
    ensures AfterAll([], Flood(names)) == Filled(names)
    decreases |names|
  {
    if names != [] {
      var front, name := names[..|names| - 1], names[|names| - 1];
      assert names == front + [name];
      FloodFills(front);
      FilledSnoc(front, name);
      AfterSnoc([], Flood(front), Notice(name));
      NewIsAppended(Filled(front), Notice(name));
    }
  }

  /** The request that finds the cache full evicts the first of the flood. */
  lemma FloodOverflows(names: seq<string>)
    requires |names| == MAX_SEEN_NONCES + 1 && AllDiffer(names)
    ensures AfterAll([], Flood(names)) == Filled(names)[1..]
  {
    var front, name := names[..MAX_SEEN_NONCES], names[MAX_SEEN_NONCES];
    assert names == front + [name];
    FloodFills(front);
    FilledSnoc(front, name);
    AfterSnoc([], Flood(front), Notice(name));
    NewIsAppended(Filled(front), Notice(name));
    assert Filled(names)[1..] == Filled(front)[1..] + [Entry(name, 0.0)];
  }

  /** A flood of one more notification than the cache holds lets the first one in again. */
  lemma FloodEvicts(names: seq<string>)
    requires |names| == MAX_SEEN_NONCES + 1 && AllDiffer(names)
    ensures var first, between := Notice(names[0]), Flood(names)[1..];
            && Verify([], first).accepted && NoneLater(between, first.now)
            && Evicts(Verify([], first).cache, between, first.nonce)
            && Verify(AfterAll(Verify([], first).cache, between), first).accepted
  {
    var first, between := Notice(names[0]), Flood(names)[1..];
    assert Flood(names)[0] == first;
    FloodOverflows(names);
    var full := Filled(names)[1..];
    assert forall i :: 0 <= i < |full| ==> full[i].nonce == between[i].nonce == names[i + 1];
    UnheldIsAccepted(full, first);
    UnheldIsAccepted([], first);
    SteadyReplaySucceedsExactly([], first, between, first);
  }

  const HEX := "0123456789abcdef"

  /** The last `digits` hexadecimal digits of `n`. */
  function Hex(n: nat, digits: nat): (s: string)
    ensures |s| == digits && forall i :: 0 <= i < digits ==> s[i] in HEX
    decreases digits
  {
    if digits == 0 then "" else Hex(n / 16, digits - 1) + [HEX[n % 16]]
  }

  function Size(digits: nat): nat {
    if digits == 0 then 1 else 16 * Size(digits - 1)
  }

  lemma DigitTells(x: nat, y: nat)
    requires x < 16 && y < 16 && HEX[x] == HEX[y]
    ensures x == y
  {
  }

  lemma {:induction false} HexTells(m: nat, n: nat, digits: nat)
    requires m < Size(digits) && n < Size(digits) && Hex(m, digits) == Hex(n, digits)
    ensures m == n
    decreases digits
  {
    if digits > 0 {
      var a, b := Hex(m, digits), Hex(n, digits);
      assert a[..digits - 1] == Hex(m / 16, digits - 1) && b[..digits - 1] == Hex(n / 16, digits - 1);
      assert a[digits - 1] == HEX[m % 16] && b[digits - 1] == HEX[n % 16];
      HexTells(m / 16, n / 16, digits - 1);
      DigitTells(m % 16, n % 16);
    }
  }

  lemma {:induction false} SizeGrows(digits: nat)
    requires digits >= 4
    ensures Size(digits) >= 65536
  {
    if digits > 4 {
      SizeGrows(digits - 1);
    } else {
      assert Size(1) == 16 && Size(2) == 256 && Size(3) == 4096;
    }
  }

  /** The agent asks for nonces of 32 hexadecimal digits. */
  predicate IsNonce(s: string) {
    |s| == 32 && forall i :: 0 <= i < 32 ==> s[i] in HEX
  }

  lemma HexNames(digits: nat, count: nat) returns (names: seq<string>)
    requires digits == 32 && count <= 65536
    ensures |names| == count && AllDiffer(names) && forall i :: 0 <= i < count ==> IsNonce(names[i])
  {
    names := seq(count, i requires 0 <= i < count => Hex(i, digits));
    SizeGrows(digits);
    forall i, j | 0 <= i < j < count ensures names[i] != names[j] {
      if names[i] == names[j] { HexTells(i, j, digits); }
    }
  }

  /** A run from the empty cache at whose end a replay is accepted, with nonces that the agent asks for. */
  lemma EvictionHappens() returns (first: Request, between: seq<Request>)
    ensures IsNonce(first.nonce) && forall i :: 0 <= i < |between| ==> IsNonce(between[i].nonce)
    ensures Verify([], first).accepted && NoneLater(between, first.now)
    ensures Evicts(Verify([], first).cache, between, first.nonce)
    ensures Verify(AfterAll(Verify([], first).cache, between), first).accepted
  {
    var names := HexNames(32, MAX_SEEN_NONCES + 1);
    first, between := Notice(names[0]), Flood(names)[1..];
    FloodEvicts(names);
    assert forall i :: 0 <= i < |between| ==> between[i].nonce == names[i + 1];
  }

  lemma {:induction false} NothingPurged(s: Cache, cutoff: real)
    requires forall i :: 0 <= i < |s| ==> s[i].at >= cutoff
    ensures Purge(s, cutoff) == s
  {
    if s != [] { NothingPurged(s[1..], cutoff); }
  }
}
