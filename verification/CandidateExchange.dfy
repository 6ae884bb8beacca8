/** What the coordinator accepts and merges, and what an agent accepts from it. */
module CandidateExchange {
  import opened Basics
  import opened Candidates
  import opened Endpoints

  const MAX_CANDIDATES := 16

  /** One advertised entry as it comes from JSON; "" for a missing family. */
  datatype Raw = Raw(kind: string, endpoint: string, family: string, priority: int, verified: bool)

  function KindOf(name: string): Option<Kind> {
    if name == "lan4" then Some(Lan4) else if name == "host6" then Some(Host6)
    else if name == "observed6" then Some(Observed6) else if name == "reflexive6" then Some(Reflexive6)
    else if name == "mapped4" then Some(Mapped4) else if name == "observed4" then Some(Observed4)
    else if name == "predicted4" then Some(Predicted4) else None
  }

  function FamilyName(f: Family): string {
    if f == Udp6 then "udp6" else "udp4"
  }

  function FamilyOf(h: Host): Family {
    if h.v6 then Udp6 else Udp4
  }

  function ToRaw(c: Candidate): Raw {
    Raw(Name(c.kind), c.endpoint, FamilyName(c.family), c.priority, c.verified)
  }

  function ToRaws(cs: seq<Candidate>): seq<Raw> {
    seq(|cs|, i requires 0 <= i < |cs| => ToRaw(cs[i]))
  }

  // ---------------------------------------------------------------- shared pieces

  type Pair = (Kind, string)

  function PairOf(c: Candidate): Pair {
    (c.kind, c.endpoint)
  }

  /** Keep the first of every (type, endpoint) pair; entries without an endpoint are skipped. */
  function DedupePairs(cs: seq<Candidate>, seen: set<Pair>): seq<Candidate> {
    if cs == [] then []
    else if cs[0].endpoint == "" || PairOf(cs[0]) in seen then DedupePairs(cs[1..], seen)
    else [cs[0]] + DedupePairs(cs[1..], seen + {PairOf(cs[0])})
  }

  type Reader = Raw -> Option<Candidate>

  /** Read every entry, fail on the first bad one, keep the first of every pair. */
  function Collect(read: Reader, vs: seq<Raw>, seen: set<Pair>): Option<seq<Candidate>> {
    if vs == [] then Some([])
    else
      var c := read(vs[0]);
      if c.None? then None
      else
        var rest := Collect(read, vs[1..], seen + {PairOf(c.value)});
        if rest.None? || PairOf(c.value) in seen then rest else Some([c.value] + rest.value)
  }

  /** `validate_candidates` with either side's reader; none for its ValueError. */
  function Accepts(read: Reader, vs: seq<Raw>): Option<seq<Candidate>> {
    if |vs| > MAX_CANDIDATES then None
    else
      var cs := Collect(read, vs, {});
      if cs.None? then None else Some(SortByPriority(cs.value))
  }

  /** `whole` is `done` and then `rest`, unless reading the rest fails. */
  predicate Continues(whole: Option<seq<Candidate>>, done: seq<Candidate>, rest: Option<seq<Candidate>>) {
    (whole.None? <==> rest.None?) && (whole.Some? && rest.Some? ==> whole.value == done + rest.value)
  }

  method ValidateCandidates(read: Reader, vs: seq<Raw>) returns (r: Option<seq<Candidate>>)
    ensures r == Accepts(read, vs)
  {
    if |vs| > MAX_CANDIDATES {
      return None;
    }
    var result: seq<Candidate> := [];
    var seen: set<Pair> := {};
    assert vs[0..] == vs;
    for i := 0 to |vs|
      invariant Continues(Collect(read, vs, {}), result, Collect(read, vs[i..], seen))
    {
      assert vs[i..][1..] == vs[i + 1..];
      var candidate := read(vs[i]);
      if candidate == None {
        return None;
      }
      var c := candidate.value;
      if PairOf(c) !in seen {
        seen := seen + {PairOf(c)};
        result := result + [c];
      } else {
        assert seen + {PairOf(c)} == seen;
      }
    }
    assert vs[|vs|..] == [] && Collect(read, [], seen) == Some([]);
    assert result == result + [];
    assert Collect(read, vs, {}) == Some(result);
    r := Some(SortByPriority(result));
  }

  function InsertByPriority(c: Candidate, cs: seq<Candidate>): seq<Candidate> {
    if cs == [] || cs[0].priority <= c.priority then [c] + cs else [cs[0]] + InsertByPriority(c, cs[1..])
  }

  /** `sorted(..., key=priority, reverse=True)`, which is stable. */
  function SortByPriority(cs: seq<Candidate>): seq<Candidate> {
    if cs == [] then [] else InsertByPriority(cs[0], SortByPriority(cs[1..]))
  }

  predicate Descending(cs: seq<Candidate>) {
    forall i, j :: 0 <= i < j < |cs| ==> cs[j].priority <= cs[i].priority
  }

  predicate DistinctPairs(cs: seq<Candidate>) {
    forall i, j :: 0 <= i < j < |cs| ==> PairOf(cs[i]) != PairOf(cs[j])
  }

  // ---------------------------------------------------------------- the agent

  /** One entry as the agent reads it. */
  function AgentEntry(lib: Library, v: Raw): Option<Candidate> {
    var k, e := KindOf(v.kind), Parse(lib, v.endpoint);
    if k.None? || k.value == Observed6 || e.None? then None
    else
      var family := FamilyOf(e.value.host);
      if (v.family != "" && v.family != FamilyName(family)) || !(0 <= v.priority <= 2000) then None
      else Some(Candidate(k.value, family, e.value.text, v.priority, v.verified))
  }

  /** The agent's `validate_candidates`. */
  function AgentAccepts(lib: Library, vs: seq<Raw>): Option<seq<Candidate>> {
    Accepts(v => AgentEntry(lib, v), vs)
  }

  // ---------------------------------------------------------------- the coordinator

  /** One entry as the coordinator reads it from a node. */
  function NodeEntry(lib: Library, v: Raw): Option<Candidate> {
    var k, e := KindOf(v.kind), Parse(lib, v.endpoint);
    if k.None? || e.None? || !(k.value == Lan4 || k.value == Host6 || k.value == Reflexive6 || k.value == Mapped4) then None
    else
      var h := e.value.host;
      if k.value == Lan4 && (h.v6 || !h.isPrivate) then None
      else if (k.value == Host6 || k.value == Reflexive6) && (!h.v6 || !h.isGlobal || h.isPrivate || h.isLinkLocal) then None
      else if k.value == Mapped4 && h.v6 then None
      else if (v.family != "" && v.family != FamilyName(FamilyOf(h))) || !(0 <= v.priority <= 2000) then None
      else Some(Candidate(k.value, FamilyOf(h), e.value.text, v.priority, false))
  }

  /** The coordinator's `validate_candidates` for what a node advertises. */
  function NodeAccepts(lib: Library, vs: seq<Raw>): Option<seq<Candidate>> {
    Accepts(v => NodeEntry(lib, v), vs)
  }

  /** The announced LAN address, as the coordinator turns it into a candidate. */
  function LanCandidate(lib: Library, endpoint: string): seq<Candidate> {
    var e := Parse(lib, endpoint);
    if e.None? || e.value.host.v6 || !e.value.host.isPrivate then []
    else [Candidate(Lan4, Udp4, e.value.text, 1000, false)]
  }

  function ObservedCandidate(lib: Library, endpoint: string): seq<Candidate> {
    var e := Parse(lib, endpoint);
    if e.None? || e.value.host.v6 then [] else [Candidate(Observed4, Udp4, e.value.text, 700, true)]
  }

  const PREDICTED4_DELTAS := [-2, -1, 1, 2]

  function Predict(h: Host, port: int, deltas: seq<int>): seq<Candidate> {
    if deltas == [] then []
    else
      var rest := Predict(h, port, deltas[1..]);
      if 1 <= port + deltas[0] <= 65535
      then [Candidate(Predicted4, Udp4, Format(h, port + deltas[0]), 500, false)] + rest
      else rest
  }

  function PredictedCandidates(lib: Library, endpoint: string): seq<Candidate> {
    var e := Parse(lib, endpoint);
    if e.None? || e.value.host.v6 || !e.value.host.isGlobal || e.value.host.isPrivate then []
    else Predict(e.value.host, e.value.port, PREDICTED4_DELTAS)
  }

  function Cap(cs: seq<Candidate>): seq<Candidate> {
    if |cs| <= MAX_CANDIDATES then cs else cs[..MAX_CANDIDATES]
  }

  /** `merge_candidates` over the concatenated groups. */
  function Merge(cs: seq<Candidate>): seq<Candidate> {
    Cap(SortByPriority(DedupePairs(cs, {})))
  }

  predicate HasMapped(cs: seq<Candidate>) {
    exists i :: 0 <= i < |cs| && cs[i].kind == Mapped4
  }

  /** The groups of an offer: LAN address, advertised list, observed endpoint, predicted ports. */
  function Gathered(lib: Library, lan: string, advertised: seq<Candidate>, endpoint: string): seq<Candidate> {
    (if lan == "" then [] else LanCandidate(lib, lan)) + advertised + ObservedCandidate(lib, endpoint)
    + if HasMapped(advertised) then [] else PredictedCandidates(lib, endpoint)
  }

  /** The candidates of an offer. */
  function OfferCandidates(lib: Library, lan: string, advertised: seq<Candidate>, endpoint: string): seq<Candidate> {
    Merge(Gathered(lib, lan, advertised, endpoint))
  }

  method MergeGroups(groups: seq<seq<Candidate>>) returns (merged: seq<Candidate>)
    ensures merged == Merge(Flatten(groups))
  {
    var result: seq<Candidate> := [];
    var seen: set<Pair> := {};
    ghost var all := DedupePairs(Flatten(groups), {});
    assert groups[0..] == groups;
    for g := 0 to |groups|
      invariant result + DedupePairs(Flatten(groups[g..]), seen) == all
    {
      assert groups[g..][1..] == groups[g + 1..];
      ghost var later := Flatten(groups[g + 1..]);
      assert Flatten(groups[g..]) == groups[g][0..] + later;
      for i := 0 to |groups[g]|
        invariant result + DedupePairs(groups[g][i..] + later, seen) == all
      {
        var c := groups[g][i];
        assert (groups[g][i..] + later)[0] == c && (groups[g][i..] + later)[1..] == groups[g][i + 1..] + later;
        if c.endpoint != "" && PairOf(c) !in seen {
          seen := seen + {PairOf(c)};
          result := result + [c];
        }
      }
      assert groups[g][|groups[g]|..] + later == later;
    }
    assert groups[|groups|..] == [] && Flatten([]) == [] && DedupePairs([], seen) == [];
    assert result == all;
    merged := Cap(SortByPriority(result));
  }

  function Flatten(groups: seq<seq<Candidate>>): seq<Candidate> {
    if groups == [] then [] else groups[0] + Flatten(groups[1..])
  }

  // ---------------------------------------------------------------- what is merged is accepted

  /** The agent reads this candidate back as it is. */
  predicate Readable(lib: Library, c: Candidate) {
    c.endpoint != "" && AgentEntry(lib, ToRaw(c)) == Some(c)
  }

  predicate AllReadable(lib: Library, cs: seq<Candidate>) {
    forall i :: 0 <= i < |cs| ==> Readable(lib, cs[i])
  }

  lemma KindIsRead(k: Kind)
    ensures KindOf(Name(k)) == Some(k)
  {
  }

  /** A candidate whose endpoint is canonical is readable. */
  lemma CanonicalIsReadable(lib: Library, c: Candidate)
    requires Parse(lib, c.endpoint).Some? && Parse(lib, c.endpoint).value.text == c.endpoint
    requires c.family == FamilyOf(Parse(lib, c.endpoint).value.host) && c.kind != Observed6 && 0 <= c.priority <= 2000
    ensures Readable(lib, c)
  {
    KindIsRead(c.kind);
    assert Split("") == None;
  }

  lemma NodeEntryReadable(lib: Library, v: Raw)
    requires Faithful(lib) && NodeEntry(lib, v).Some?
    ensures Readable(lib, NodeEntry(lib, v).value)
  {
    ParseIsIdempotent(lib, v.endpoint);
    CanonicalIsReadable(lib, NodeEntry(lib, v).value);
  }

  /** What is collected was read, and no pair is collected twice. */
  lemma {:induction false} CollectSelects(read: Reader, vs: seq<Raw>, seen: set<Pair>)
    requires Collect(read, vs, seen).Some?
    ensures var r := Collect(read, vs, seen).value;
            forall c :: c in r ==> exists v :: v in vs && read(v) == Some(c)
  {
    if vs != [] {
      var c := read(vs[0]);
      CollectSelects(read, vs[1..], seen + {PairOf(c.value)});
      assert vs[0] in vs;
    }
  }

  lemma PredictedIsReadable(lib: Library, h: Host, port: int)
    requires Faithful(lib) && Canonical(lib, h) && !h.isReserved && !h.v6 && 1 <= port <= 65535
    ensures Readable(lib, Candidate(Predicted4, Udp4, Format(h, port), 500, false))
  {
    FormatParses(lib, h, port);
    CanonicalIsReadable(lib, Candidate(Predicted4, Udp4, Format(h, port), 500, false));
  }

  lemma {:induction false} PredictMembers(h: Host, port: int, deltas: seq<int>, c: Candidate)
    requires c in Predict(h, port, deltas)
    ensures exists p :: 1 <= p <= 65535 && c == Candidate(Predicted4, Udp4, Format(h, p), 500, false)
  {
    if c in Predict(h, port, deltas[1..]) { PredictMembers(h, port, deltas[1..], c); }
  }

  lemma PredictReadable(lib: Library, h: Host, port: int, deltas: seq<int>)
    requires Faithful(lib) && Canonical(lib, h) && !h.isReserved && !h.v6
    ensures AllReadable(lib, Predict(h, port, deltas))
  {
    var cs := Predict(h, port, deltas);
    forall i | 0 <= i < |cs| ensures Readable(lib, cs[i]) {
      PredictMembers(h, port, deltas, cs[i]);
      var p :| 1 <= p <= 65535 && cs[i] == Candidate(Predicted4, Udp4, Format(h, p), 500, false);
      PredictedIsReadable(lib, h, p);
    }
  }

  lemma ObservationsReadable(lib: Library, endpoint: string)
    requires Faithful(lib)
    ensures AllReadable(lib, LanCandidate(lib, endpoint)) && AllReadable(lib, ObservedCandidate(lib, endpoint))
    ensures AllReadable(lib, PredictedCandidates(lib, endpoint))
  {
    if Parse(lib, endpoint).Some? {
      var e := Parse(lib, endpoint).value;
      ParseIsIdempotent(lib, endpoint);
      if !e.host.v6 {
        CanonicalIsReadable(lib, Candidate(Lan4, Udp4, e.text, 1000, false));
        CanonicalIsReadable(lib, Candidate(Observed4, Udp4, e.text, 700, true));
        PredictReadable(lib, e.host, e.port, PREDICTED4_DELTAS);
      }
    }
  }

  lemma {:induction false} DedupePairsSelects(cs: seq<Candidate>, seen: set<Pair>)
    ensures var r := DedupePairs(cs, seen);
            DistinctPairs(r) && (forall c :: c in r ==> c in cs && PairOf(c) !in seen)
  {
    if cs != [] {
      DedupePairsSelects(cs[1..], seen);
      DedupePairsSelects(cs[1..], seen + {PairOf(cs[0])});
    }
  }

  lemma {:induction false} InsertKeeps(c: Candidate, cs: seq<Candidate>)
    requires Descending(cs)
    ensures Descending(InsertByPriority(c, cs))
  {
    if cs != [] && cs[0].priority > c.priority {
      InsertKeeps(c, cs[1..]);
      InsertPermutes(c, cs[1..]);
      var rest := InsertByPriority(c, cs[1..]);
      forall i | 0 <= i < |rest| ensures rest[i].priority <= cs[0].priority {
        assert rest[i] in multiset(rest);
        assert rest[i] == c || rest[i] in cs[1..];
      }
    }
  }

  lemma {:induction false} InsertPermutes(c: Candidate, cs: seq<Candidate>)
    ensures multiset(InsertByPriority(c, cs)) == multiset{c} + multiset(cs)
  {
    if cs != [] {
      InsertPermutes(c, cs[1..]);
      assert cs == [cs[0]] + cs[1..];
    }
  }

  lemma {:induction false} SortByPrioritySorts(cs: seq<Candidate>)
    ensures Descending(SortByPriority(cs)) && multiset(SortByPriority(cs)) == multiset(cs)
  {
    if cs != [] {
      SortByPrioritySorts(cs[1..]);
      InsertKeeps(cs[0], SortByPriority(cs[1..]));
      InsertPermutes(cs[0], SortByPriority(cs[1..]));
      assert cs == [cs[0]] + cs[1..];
    }
  }

  lemma {:induction false} SortOfDescending(cs: seq<Candidate>)
    requires Descending(cs)
    ensures SortByPriority(cs) == cs
  {
    if cs != [] { SortOfDescending(cs[1..]); }
  }

  lemma {:induction false} CountAtMostOne(cs: seq<Candidate>, c: Candidate)
    requires DistinctPairs(cs)
    ensures multiset(cs)[c] <= 1
  {
    if cs != [] {
      assert cs == [cs[0]] + cs[1..];
      CountAtMostOne(cs[1..], c);
      if c == cs[0] {
        assert c !in cs[1..];
        assert c !in multiset(cs[1..]);
      }
    }
  }

  lemma CountTwice(cs: seq<Candidate>, i: nat, j: nat)
    requires i < j < |cs| && cs[i] == cs[j]
    ensures multiset(cs)[cs[j]] >= 2
  {
    assert cs == cs[..j] + [cs[j]] + cs[j + 1..];
    assert cs[j] == cs[..j][i];
  }

  /** Arranging distinct pairs in another order keeps them distinct. */
  lemma DistinctInAnyOrder(a: seq<Candidate>, b: seq<Candidate>)
    requires DistinctPairs(a) && multiset(a) == multiset(b)
    ensures DistinctPairs(b)
  {
    forall i, j | 0 <= i < j < |b| ensures PairOf(b[i]) != PairOf(b[j]) {
      CountAtMostOne(a, b[j]);
      if b[i] == b[j] { CountTwice(b, i, j); }
      assert b[i] in multiset(b) && b[j] in multiset(b);
      assert b[i] in a && b[j] in a;
    }
  }

  /** A readable list without duplicates is collected as it is. */
  lemma {:induction false} ReadBack(read: Reader, cs: seq<Candidate>, seen: set<Pair>)
    requires DistinctPairs(cs)
    requires forall i :: 0 <= i < |cs| ==> PairOf(cs[i]) !in seen && read(ToRaw(cs[i])) == Some(cs[i])
    ensures Collect(read, ToRaws(cs), seen) == Some(cs)
  {
    if cs != [] {
      var raws, seen' := ToRaws(cs), seen + {PairOf(cs[0])};
      assert raws[0] == ToRaw(cs[0]) && raws[1..] == ToRaws(cs[1..]);
      ReadBack(read, cs[1..], seen');
      assert Collect(read, raws[1..], seen') == Some(cs[1..]);
      assert cs == [cs[0]] + cs[1..];
    }
  }

  /** The merge of readable candidates is sorted, has no duplicates and consists of merged entries. */
  lemma MergeSelects(lib: Library, cs: seq<Candidate>)
    requires AllReadable(lib, cs)
    ensures var m := Merge(cs); Descending(m) && DistinctPairs(m) && AllReadable(lib, m) && |m| <= MAX_CANDIDATES
  {
    var d := DedupePairs(cs, {});
    DedupePairsSelects(cs, {});
    SortedIsReadable(lib, d);
  }

  /** Sorting keeps what is needed of a list. */
  lemma SortedIsReadable(lib: Library, d: seq<Candidate>)
    requires forall c :: c in d ==> Readable(lib, c)
    ensures var s := SortByPriority(d); Descending(s) && AllReadable(lib, s) && (DistinctPairs(d) ==> DistinctPairs(s))
  {
    var s := SortByPriority(d);
    SortByPrioritySorts(d);
    if DistinctPairs(d) { DistinctInAnyOrder(d, s); }
    forall i | 0 <= i < |s| ensures Readable(lib, s[i]) {
      assert s[i] in multiset(s);
      assert s[i] in d;
    }
  }

  lemma AcceptedAsSent(lib: Library, m: seq<Candidate>)
    requires Descending(m) && DistinctPairs(m) && AllReadable(lib, m) && |m| <= MAX_CANDIDATES
    ensures AgentAccepts(lib, ToRaws(m)) == Some(m)
  {
    forall i | 0 <= i < |m| ensures AgentEntry(lib, ToRaw(m[i])) == Some(m[i]) {
      assert Readable(lib, m[i]);
    }
    ReadBack(v => AgentEntry(lib, v), m, {});
    SortOfDescending(m);
  }

  lemma NodeAcceptsReadable(lib: Library, vs: seq<Raw>)
    requires Faithful(lib) && NodeAccepts(lib, vs).Some?
    ensures AllReadable(lib, NodeAccepts(lib, vs).value)
  {
    var read := v => NodeEntry(lib, v);
    var cs := Collect(read, vs, {}).value;
    CollectSelects(read, vs, {});
    forall c | c in cs ensures Readable(lib, c) {
      var v :| v in vs && read(v) == Some(c);
      NodeEntryReadable(lib, v);
    }
    SortedIsReadable(lib, cs);
  }

  // ---------------------------------------------------------------- from the announcement to the offer

  /** `validate_announcement`: the LAN address and port of a node. */
  function Announced(lib: Library, lanIp: string, port: int): Option<Host> {
    var h := lib.address(lanIp);
    if h.None? || h.value.v6 || !h.value.isPrivate || !(1 <= port <= 65535) then None else h
  }

  /** What a node advertises, or its LAN address if that is nothing. */
  function AdvertisedList(h: Host, port: nat, accepted: seq<Candidate>): seq<Candidate> {
    if accepted == [] then [Candidate(Lan4, Udp4, Format(h, port), 1000, false)] else accepted
  }

  lemma ReadableOffer(lib: Library, lan: string, advertised: seq<Candidate>, endpoint: string)
    requires Faithful(lib) && AllReadable(lib, advertised)
    ensures var sent := OfferCandidates(lib, lan, advertised, endpoint); AgentAccepts(lib, ToRaws(sent)) == Some(sent)
  {
    ObservationsReadable(lib, lan);
    ObservationsReadable(lib, endpoint);
    var all := Gathered(lib, lan, advertised, endpoint);
    assert AllReadable(lib, all);
    MergeSelects(lib, all);
    AcceptedAsSent(lib, Merge(all));
  }

  lemma ReservedDoesNotParse(lib: Library, h: Host, port: nat)
    requires Faithful(lib) && Canonical(lib, h) && 1 <= port <= 65535 && h.isReserved
    ensures Parse(lib, Format(h, port)) == None
  {
    SplitFormat(h, port);
  }

  lemma UnparsedIsRefused(lib: Library, c: Candidate)
    requires Parse(lib, c.endpoint) == None
    ensures AgentEntry(lib, ToRaw(c)) == None && LanCandidate(lib, c.endpoint) == []
  {
  }

  /** The agent does not read the replacement if its address is unspecified, */
  lemma LanEntryRefused(lib: Library, h: Host, port: nat)
    requires Faithful(lib) && Canonical(lib, h) && 1 <= port <= 65535 && h.isReserved
    ensures AgentEntry(lib, ToRaw(AdvertisedList(h, port, [])[0])) == None && LanCandidate(lib, Format(h, port)) == []
  {
    ReservedDoesNotParse(lib, h, port);
    UnparsedIsRefused(lib, AdvertisedList(h, port, [])[0]);
  }

  /** and reads it otherwise. */
  lemma LanEntryReadable(lib: Library, h: Host, port: nat)
    requires Faithful(lib) && Canonical(lib, h) && !h.v6 && 1 <= port <= 65535 && !h.isReserved
    ensures Readable(lib, AdvertisedList(h, port, [])[0])
  {
    FormatParses(lib, h, port);
    CanonicalIsReadable(lib, AdvertisedList(h, port, [])[0]);
  }

  lemma {:induction false} BadEntry(read: Reader, vs: seq<Raw>, seen: set<Pair>, i: nat)
    requires i < |vs| && read(vs[i]) == None
    ensures Collect(read, vs, seen) == None
  {
    if i > 0 && read(vs[0]).Some? { BadEntry(read, vs[1..], seen + {PairOf(read(vs[0]).value)}, i - 1); }
  }

  lemma {:induction false} DedupeShortens(cs: seq<Candidate>, seen: set<Pair>)
    ensures |DedupePairs(cs, seen)| <= |cs|
  {
    if cs != [] {
      DedupeShortens(cs[1..], seen);
      DedupeShortens(cs[1..], seen + {PairOf(cs[0])});
    }
  }

  lemma {:induction false} FewPredictions(h: Host, port: int, deltas: seq<int>)
    ensures |Predict(h, port, deltas)| <= |deltas|
  {
    if deltas != [] { FewPredictions(h, port, deltas[1..]); }
  }

  /** A short list keeps its first entry through the merge. */
  lemma FirstIsMerged(c: Candidate, cs: seq<Candidate>)
    requires c.endpoint != "" && |cs| < MAX_CANDIDATES
    ensures c in Merge([c] + cs)
  {
    var all := [c] + cs;
    var d := DedupePairs(all, {});
    assert all[1..] == cs;
    DedupeShortens(all, {});
    SortByPrioritySorts(d);
    assert d[0] == c;
    assert |SortByPriority(d)| == |multiset(SortByPriority(d))| == |multiset(d)| == |d|;
    assert c in multiset(d);
    assert c in SortByPriority(d);
  }

  /** A short list that starts with a bad entry is refused. */
  lemma BadFirst(lib: Library, c: Candidate, cs: seq<Candidate>)
    requires c.endpoint != "" && |cs| < MAX_CANDIDATES && AgentEntry(lib, ToRaw(c)) == None
    ensures AgentAccepts(lib, ToRaws(Merge([c] + cs))) == None
  {
    FirstIsMerged(c, cs);
    var sent := Merge([c] + cs);
    var i :| 0 <= i < |sent| && sent[i] == c;
    assert ToRaws(sent)[i] == ToRaw(c);
    BadEntry(v => AgentEntry(lib, v), ToRaws(sent), {}, i);
  }

  lemma FewObservations(lib: Library, endpoint: string)
    ensures |ObservedCandidate(lib, endpoint)| <= 1 && |PredictedCandidates(lib, endpoint)| <= 4
  {
    var e := Parse(lib, endpoint);
    if e.Some? { FewPredictions(e.value.host, e.value.port, PREDICTED4_DELTAS); }
  }

  lemma RefusedEntry(lib: Library, c: Candidate, endpoint: string)
    requires c.endpoint != "" && AgentEntry(lib, ToRaw(c)) == None && LanCandidate(lib, c.endpoint) == []
    ensures AgentAccepts(lib, ToRaws(OfferCandidates(lib, c.endpoint, [c], endpoint))) == None
  {
    FewObservations(lib, endpoint);
    var rest := ObservedCandidate(lib, endpoint) + if HasMapped([c]) then [] else PredictedCandidates(lib, endpoint);
    assert Gathered(lib, c.endpoint, [c], endpoint) == [c] + rest;
    BadFirst(lib, c, rest);
  }

  lemma RefusedOffer(lib: Library, h: Host, port: nat, endpoint: string)
    requires Faithful(lib) && Canonical(lib, h) && 1 <= port <= 65535 && h.isReserved
    ensures AgentAccepts(lib, ToRaws(OfferCandidates(lib, Format(h, port), AdvertisedList(h, port, []), endpoint))) == None
  {
    LanEntryRefused(lib, h, port);
    RefusedEntry(lib, AdvertisedList(h, port, [])[0], endpoint);
  }

  /**
   * Whatever a node announces and advertises and the coordinator accepts, the candidates of the resulting
   * offer are read by the agent exactly as they were sent, unless the node advertises nothing and announces
   * an unspecified LAN address: then the whole offer is refused.
   */
  lemma OffersAreAccepted(lib: Library, vs: seq<Raw>, lanIp: string, port: nat, endpoint: string)
    requires Faithful(lib) && Announced(lib, lanIp, port).Some? && NodeAccepts(lib, vs).Some?
    ensures var h, accepted := Announced(lib, lanIp, port).value, NodeAccepts(lib, vs).value;
            var sent := OfferCandidates(lib, Format(h, port), AdvertisedList(h, port, accepted), endpoint);
            if accepted == [] && h.isReserved then AgentAccepts(lib, ToRaws(sent)) == None
            else AgentAccepts(lib, ToRaws(sent)) == Some(sent)
  {
    var h, accepted := Announced(lib, lanIp, port).value, NodeAccepts(lib, vs).value;
    NodeAcceptsReadable(lib, vs);
    if accepted != [] {
      ReadableOffer(lib, Format(h, port), accepted, endpoint);
    } else if h.isReserved {
      RefusedOffer(lib, h, port, endpoint);
    } else {
      LanEntryReadable(lib, h, port);
      ReadableOffer(lib, Format(h, port), AdvertisedList(h, port, []), endpoint);
    }
  }

  /** The input that fails: a library says of 0.0.0.0 that it is private, not global and unspecified. */
  lemma UnspecifiedLanIsRefused(lib: Library, endpoint: string)
    requires Faithful(lib) && lib.address("0.0.0.0") == Some(Host("0.0.0.0", false, true, false, false, true))
    ensures var h := Announced(lib, "0.0.0.0", 51820).value;
            AgentAccepts(lib, ToRaws(OfferCandidates(lib, Format(h, 51820), AdvertisedList(h, 51820, []), endpoint))) == None
  {
    var accepted := NodeAccepts(lib, []);
    assert accepted == Some([]);
    OffersAreAccepted(lib, [], "0.0.0.0", 51820, endpoint);
  }
}
