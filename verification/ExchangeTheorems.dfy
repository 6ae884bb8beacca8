/** Exactly which entries coordinator and agent take from each other, and what becomes of a list of them. */
module ExchangeTheorems {
  import opened Basics
  import opened Candidates
  import opened Endpoints
  import opened CandidateExchange

  // ---------------------------------------------------------------- one entry

  /** The names of the types on the wire. */
  lemma WireNames(name: string, k: Kind)
    ensures KindOf(name) == Some(k) <==> name == Name(k)
    ensures Name(Lan4) == "lan4" && Name(Host6) == "host6" && Name(Observed6) == "observed6"
    ensures Name(Reflexive6) == "reflexive6" && Name(Mapped4) == "mapped4" && Name(Observed4) == "observed4"
    ensures Name(Predicted4) == "predicted4"
  {
  }

  /** `c` is `v` with its endpoint in canonical form, as far as type, family and priority are in order. */
  predicate Reading(lib: Library, v: Raw, c: Candidate) {
    var e := Parse(lib, v.endpoint);
    && e.Some? && v.kind == Name(c.kind) && c.endpoint == e.value.text
    && c.family == (if e.value.host.v6 then Udp6 else Udp4)
    && (v.family == "" || v.family == if e.value.host.v6 then "udp6" else "udp4")
    && 0 <= v.priority <= 2000 && c.priority == v.priority
  }

  /** The agent takes every known type but observed6. */
  lemma AgentTakesExactly(lib: Library, v: Raw, c: Candidate)
    ensures AgentEntry(lib, v) == Some(c) <==> Reading(lib, v, c) && c.kind != Observed6 && c.verified == v.verified
  {
    WireNames(v.kind, c.kind);
  }

  /** What a node may say about itself: a private IPv4, a global IPv6 or a mapped IPv4 address. */
  predicate MayAdvertise(lib: Library, v: Raw, k: Kind)
    requires Parse(lib, v.endpoint).Some?
  {
    var h := Parse(lib, v.endpoint).value.host;
    match k
    case Lan4 => !h.v6 && h.isPrivate
    case Host6 => h.v6 && h.isGlobal && !h.isPrivate && !h.isLinkLocal
    case Reflexive6 => h.v6 && h.isGlobal && !h.isPrivate && !h.isLinkLocal
    case Mapped4 => !h.v6
    case _ => false
  }

  /** The coordinator takes that from a node and nothing else, and never as verified. */
  lemma NodeTakesExactly(lib: Library, v: Raw, c: Candidate)
    ensures NodeEntry(lib, v) == Some(c) <==> Reading(lib, v, c) && MayAdvertise(lib, v, c.kind) && !c.verified
  {
    WireNames(v.kind, c.kind);
    var k := KindOf(v.kind);
    if k.Some? { WireNames(v.kind, k.value); }
  }

  // ---------------------------------------------------------------- a list of entries

  /** Entry `i` reads as `c` and is the first of its pair. */
  predicate FirstOfPair(read: Reader, vs: seq<Raw>, i: nat, c: Candidate) {
    && i < |vs| && read(vs[i]) == Some(c)
    && forall j :: 0 <= j < i ==> read(vs[j]).Some? && PairOf(read(vs[j]).value) != PairOf(c)
  }

  lemma FirstOfTail(read: Reader, vs: seq<Raw>, c: Candidate)
    requires vs != [] && read(vs[0]).Some?
    ensures (exists i: nat :: FirstOfPair(read, vs, i, c))
            <==> (read(vs[0]) == Some(c)
                  || (PairOf(read(vs[0]).value) != PairOf(c) && exists i: nat :: FirstOfPair(read, vs[1..], i, c)))
  {
    if i: nat :| FirstOfPair(read, vs, i, c) {
      if i > 0 {
        assert forall j :: 0 <= j < i - 1 ==> vs[1..][j] == vs[j + 1];
        assert FirstOfPair(read, vs[1..], i - 1, c);
      }
    }
    if read(vs[0]) == Some(c) { assert FirstOfPair(read, vs, 0, c); }
    if PairOf(read(vs[0]).value) != PairOf(c) {
      if i: nat :| FirstOfPair(read, vs[1..], i, c) {
        assert forall j :: 0 < j <= i ==> vs[j] == vs[1..][j - 1];
        assert FirstOfPair(read, vs, i + 1, c);
      }
    }
  }

  lemma {:induction false} CollectsExactly(read: Reader, vs: seq<Raw>, seen: set<Pair>)
    ensures Collect(read, vs, seen).Some? <==> forall i :: 0 <= i < |vs| ==> read(vs[i]).Some?
    ensures Collect(read, vs, seen).Some? ==>
              var r := Collect(read, vs, seen).value;
              && DistinctPairs(r)
              && forall c :: c in r <==> PairOf(c) !in seen && exists i: nat :: FirstOfPair(read, vs, i, c)
  {
    if vs != [] && read(vs[0]).Some? {
      var h := read(vs[0]).value;
      CollectsExactly(read, vs[1..], seen + {PairOf(h)});
      assert (forall i :: 0 <= i < |vs| ==> read(vs[i]).Some?)
             <==> (forall i :: 0 <= i < |vs[1..]| ==> read(vs[1..][i]).Some?)
      by {
        assert forall i :: 0 <= i < |vs[1..]| ==> vs[1..][i] == vs[i + 1];
        assert forall i :: 0 < i < |vs| ==> vs[i] == vs[1..][i - 1];
      }
      if Collect(read, vs, seen).Some? {
        forall c ensures c in Collect(read, vs, seen).value
                         <==> PairOf(c) !in seen && exists i: nat :: FirstOfPair(read, vs, i, c) {
          FirstOfTail(read, vs, c);
        }
      }
    }
  }

  /**
   * A list is accepted exactly if it has at most sixteen entries and each of them is taken.  What is accepted
   * are the first entries of every pair, by falling priority.
   */
  lemma AcceptsExactly(read: Reader, vs: seq<Raw>)
    ensures Accepts(read, vs).Some? <==> |vs| <= 16 && forall i :: 0 <= i < |vs| ==> read(vs[i]).Some?
    ensures Accepts(read, vs).Some? ==>
              var r := Accepts(read, vs).value;
              && Descending(r) && DistinctPairs(r)
              && forall c :: c in r <==> exists i: nat :: FirstOfPair(read, vs, i, c)
  {
    CollectsExactly(read, vs, {});
    if Accepts(read, vs).Some? {
      var d := Collect(read, vs, {}).value;
      SortByPrioritySorts(d);
      DistinctInAnyOrder(d, SortByPriority(d));
      forall c ensures c in SortByPriority(d) <==> c in d {
        assert c in multiset(d) <==> c in multiset(SortByPriority(d));
      }
    }
  }

  // ---------------------------------------------------------------- what the coordinator adds

  /** The observed endpoint of a node, as the coordinator sees it. */
  lemma ObservedExactly(lib: Library, endpoint: string, c: Candidate)
    ensures c in ObservedCandidate(lib, endpoint)
            <==> && Parse(lib, endpoint).Some? && !Parse(lib, endpoint).value.host.v6
                 && c == Candidate(Observed4, Udp4, Parse(lib, endpoint).value.text, 700, true)
    ensures c in LanCandidate(lib, endpoint)
            <==> && Parse(lib, endpoint).Some? && !Parse(lib, endpoint).value.host.v6
                 && Parse(lib, endpoint).value.host.isPrivate
                 && c == Candidate(Lan4, Udp4, Parse(lib, endpoint).value.text, 1000, false)
  {
  }

  /** A port next to the observed one. */
  predicate Neighbour(e: Endpoint, c: Candidate, d: int) {
    1 <= e.port + d <= 65535 && c == Candidate(Predicted4, Udp4, Format(e.host, e.port + d), 500, false)
  }

  predicate Predicts(e: Endpoint, deltas: seq<int>, c: Candidate) {
    exists i :: 0 <= i < |deltas| && Neighbour(e, c, deltas[i])
  }

  lemma PredictsTail(e: Endpoint, deltas: seq<int>, c: Candidate)
    requires deltas != []
    ensures Predicts(e, deltas, c) <==> Neighbour(e, c, deltas[0]) || Predicts(e, deltas[1..], c)
  {
    if i :| 0 <= i < |deltas[1..]| && Neighbour(e, c, deltas[1..][i]) { assert Neighbour(e, c, deltas[i + 1]); }
    if i :| 0 < i < |deltas| && Neighbour(e, c, deltas[i]) { assert Neighbour(e, c, deltas[1..][i - 1]); }
  }

  lemma {:induction false} PredictsExactly(e: Endpoint, deltas: seq<int>, c: Candidate)
    ensures c in Predict(e.host, e.port, deltas) <==> Predicts(e, deltas, c)
  {
    if deltas != [] {
      PredictsExactly(e, deltas[1..], c);
      PredictsTail(e, deltas, c);
    }
  }

  lemma TwoAway(e: Endpoint, c: Candidate)
    ensures Predicts(e, PREDICTED4_DELTAS, c)
            <==> Neighbour(e, c, -2) || Neighbour(e, c, -1) || Neighbour(e, c, 1) || Neighbour(e, c, 2)
  {
    var d := PREDICTED4_DELTAS;
    assert d[0] == -2 && d[1] == -1 && d[2] == 1 && d[3] == 2;
  }

  /** The predictions are the ports up to two away from a public IPv4 endpoint. */
  lemma PredictedExactly(lib: Library, endpoint: string, c: Candidate)
    ensures c in PredictedCandidates(lib, endpoint)
            <==> && Parse(lib, endpoint).Some?
                 && var e := Parse(lib, endpoint).value;
                 && !e.host.v6 && e.host.isGlobal && !e.host.isPrivate
                 && (Neighbour(e, c, -2) || Neighbour(e, c, -1) || Neighbour(e, c, 1) || Neighbour(e, c, 2))
  {
    if Parse(lib, endpoint).Some? {
      var e := Parse(lib, endpoint).value;
      PredictsExactly(e, PREDICTED4_DELTAS, c);
      TwoAway(e, c);
    }
  }

  /** What an offer is merged from. */
  lemma GatheredExactly(lib: Library, lan: string, advertised: seq<Candidate>, endpoint: string, c: Candidate)
    ensures c in Gathered(lib, lan, advertised, endpoint)
            <==> || (lan != "" && c in LanCandidate(lib, lan)) || c in advertised || c in ObservedCandidate(lib, endpoint)
                 || (c in PredictedCandidates(lib, endpoint) && forall a :: a in advertised ==> a.kind != Mapped4)
  {
    if a :| a in advertised && a.kind == Mapped4 {
      var i :| 0 <= i < |advertised| && advertised[i] == a;
    }
  }

  // ---------------------------------------------------------------- the merge

  /** Entry `i` is `c`, the first one of its pair. */
  predicate FirstGiven(cs: seq<Candidate>, i: nat, c: Candidate) {
    i < |cs| && cs[i] == c && forall j :: 0 <= j < i ==> PairOf(cs[j]) != PairOf(c)
  }

  lemma GivenInTail(cs: seq<Candidate>, c: Candidate)
    requires cs != []
    ensures (exists i: nat :: FirstGiven(cs, i, c))
            <==> (cs[0] == c || (PairOf(cs[0]) != PairOf(c) && exists i: nat :: FirstGiven(cs[1..], i, c)))
  {
    if i: nat :| FirstGiven(cs, i, c) {
      if i > 0 { assert FirstGiven(cs[1..], i - 1, c); }
    }
    if cs[0] == c { assert FirstGiven(cs, 0, c); }
    if PairOf(cs[0]) != PairOf(c) {
      if i: nat :| FirstGiven(cs[1..], i, c) {
        assert forall j :: 0 < j <= i ==> cs[j] == cs[1..][j - 1];
        assert FirstGiven(cs, i + 1, c);
      }
    }
  }

  lemma {:induction false} DedupeExactly(cs: seq<Candidate>, seen: set<Pair>, c: Candidate)
    ensures c in DedupePairs(cs, seen) <==> c.endpoint != "" && PairOf(c) !in seen && exists i: nat :: FirstGiven(cs, i, c)
  {
    if cs != [] {
      GivenInTail(cs, c);
      if cs[0].endpoint == "" || PairOf(cs[0]) in seen {
        DedupeExactly(cs[1..], seen, c);
      } else {
        DedupeExactly(cs[1..], seen + {PairOf(cs[0])}, c);
      }
    }
  }

  lemma SortedMembers(d: seq<Candidate>, c: Candidate)
    ensures c in SortByPriority(d) <==> c in d
  {
    SortByPrioritySorts(d);
    assert c in multiset(d) <==> c in multiset(SortByPriority(d));
  }

  lemma MergeIsPrefix(cs: seq<Candidate>)
    ensures var s, m := SortByPriority(DedupePairs(cs, {})), Merge(cs);
            && Descending(s) && DistinctPairs(s) && m <= s && (m == s || |m| == 16)
  {
    var d := DedupePairs(cs, {});
    DedupePairsSelects(cs, {});
    SortByPrioritySorts(d);
    DistinctInAnyOrder(d, SortByPriority(d));
  }

  lemma CutIsWorse(s: seq<Candidate>, m: seq<Candidate>, x: Candidate)
    requires Descending(s) && m <= s && x in s
    ensures x in m || forall e :: e in m ==> e.priority >= x.priority
  {
    var i :| 0 <= i < |s| && s[i] == x;
    if i < |m| { assert m[i] == x; }
  }

  lemma MergedAreFirst(cs: seq<Candidate>, d: Candidate)
    requires d in Merge(cs)
    ensures d.endpoint != "" && exists i: nat :: FirstGiven(cs, i, d)
  {
    MergeIsPrefix(cs);
    var i :| 0 <= i < |Merge(cs)| && Merge(cs)[i] == d;
    assert SortByPriority(DedupePairs(cs, {}))[i] == d;
    SortedMembers(DedupePairs(cs, {}), d);
    DedupeExactly(cs, {}, d);
  }

  /**
   * The merge is ordered by falling priority and has at most sixteen entries, each the first that was given of its
   * pair.  The first of every pair is in it, unless it has sixteen that are all at least as good.
   */
  lemma MergesExactly(cs: seq<Candidate>)
    ensures var m := Merge(cs);
            && Descending(m) && DistinctPairs(m) && |m| <= 16
            && (forall d :: d in m ==> d.endpoint != "" && exists i: nat :: FirstGiven(cs, i, d))
            && (forall i: nat, d :: FirstGiven(cs, i, d) && d.endpoint != "" ==>
                  d in m || (|m| == 16 && forall e :: e in m ==> e.priority >= d.priority))
  {
    var m, s := Merge(cs), SortByPriority(DedupePairs(cs, {}));
    MergeIsPrefix(cs);
    forall d | d in m ensures d.endpoint != "" && exists i: nat :: FirstGiven(cs, i, d) {
      MergedAreFirst(cs, d);
    }
    forall i: nat, d | FirstGiven(cs, i, d) && d.endpoint != ""
      ensures d in m || (|m| == 16 && forall e :: e in m ==> e.priority >= d.priority)
    {
      DedupeExactly(cs, {}, d);
      SortedMembers(DedupePairs(cs, {}), d);
      CutIsWorse(s, m, d);
    }
  }

  /** The LAN address of an announcement: a private IPv4 address and a port. */
  lemma AnnouncesExactly(lib: Library, lanIp: string, port: int, h: Host)
    ensures Announced(lib, lanIp, port) == Some(h)
            <==> lib.address(lanIp) == Some(h) && !h.v6 && h.isPrivate && 1 <= port && port <= 65535
  {
  }

  /** A node that advertises nothing is given its LAN address, and any other one what it advertises. */
  lemma AdvertisesExactly(h: Host, port: nat, accepted: seq<Candidate>)
    ensures AdvertisedList(h, port, accepted)
            == if |accepted| > 0 then accepted else [Candidate(Lan4, Udp4, Format(h, port), 1000, false)]
  {
  }
}
