/** Concrete offers whose order does matter, and a test for when the LAN permission shows. */
module OfferLimits {
  import opened Basics
  import opened Candidates
  import opened CandidateOrder
  import opened CandidateSelection
  import opened Endpoints
  import opened CandidateExchange
  import opened PeerRegions
  import opened SignatureTheorems
  import opened OfferIntake

  // ---------------------------------------------------------------- when the permission shows

  lemma GatherMember(vs: seq<Advertised>, allowLan: bool, i: nat)
    requires i < |vs| && Admissible(Normalize(vs[i]), allowLan, true)
    ensures Normalize(vs[i]).value in Gather(vs, allowLan, true)
  {
    if i > 0 { GatherMember(vs[1..], allowLan, i - 1); }
  }

  lemma {:induction false} NoLanGathered(vs: seq<Advertised>, c: Candidate)
    requires c in Gather(vs, false, true)
    ensures c.kind != Lan4
  {
    if c in Gather(vs[1..], false, true) { NoLanGathered(vs[1..], c); }
  }

  lemma ChosenAreGiven(cs: seq<Candidate>, c: Candidate)
    requires c in Choose(cs)
    ensures c in cs && c.endpoint != ""
  {
    SelectionIsExact(cs);
    RankedIsBest(cs);
    assert c in Ranked(cs);
  }

  lemma ExactHead(r: seq<Candidate>)
    requires r != []
    ensures ExactSelection(r) != [] && ExactSelection(r)[0] == r[0]
  {
  }

  lemma SortedHead(r: seq<Candidate>, c: Candidate)
    requires StrictlySorted(r) && Represented(c, r)
    ensures r != [] && r[0].priority >= c.priority
  {
    var b :| b in r && b.endpoint == c.endpoint && Le(b, c);
    var i :| 0 <= i < |r| && r[i] == b;
    if i > 0 { assert Le(r[0], r[i]); }
  }

  /** The head of the ranked list has the highest priority of all. */
  lemma HeadIsHighest(cs: seq<Candidate>, c: Candidate)
    requires c in cs && c.endpoint != ""
    ensures Ranked(cs) != [] && Ranked(cs)[0] in cs && Ranked(cs)[0].priority >= c.priority
  {
    RankedIsBest(cs);
    SortedHead(Ranked(cs), c);
    assert Ranked(cs)[0] in Ranked(cs);
  }

  /** So has the first one chosen. */
  lemma TopIsHighest(cs: seq<Candidate>, c: Candidate)
    requires c in cs && c.endpoint != ""
    ensures Choose(cs) != [] && Choose(cs)[0] in cs && Choose(cs)[0].priority >= c.priority
  {
    HeadIsHighest(cs, c);
    SelectionIsExact(cs);
    ExactHead(Ranked(cs));
  }

  /** Without the permission no lan4 candidate is selected. */
  lemma NoLanSelected(vs: seq<Advertised>, legacy: Option<Address>, c: Candidate)
    requires c in SelectFrom(vs, legacy, false, true)
    ensures c.kind != Lan4
  {
    var cs := Gather(vs, false, true) + Legacy(legacy, false, true);
    ChosenAreGiven(cs, c);
    if c in Gather(vs, false, true) { NoLanGathered(vs, c); }
  }

  /** The permission shows whenever it lets a LAN address into the selection. */
  lemma LanShowsWhenSelected(l: Locality, cs: seq<Candidate>, endpoint: string, i: nat)
    requires i < |Selected(l, cs, endpoint, true)| && Selected(l, cs, endpoint, true)[i].kind == Lan4
    requires Clean(Selected(l, cs, endpoint, true)) && Clean(Selected(l, cs, endpoint, false))
    ensures LanShows(l, cs, endpoint)
  {
    var x, y := Selected(l, cs, endpoint, true), Selected(l, cs, endpoint, false);
    SignatureTells(x, y);
    if i < |y| { NoLanSelected(Advertise(l, cs), LegacyOf(l, endpoint), y[i]); }
  }

  // ---------------------------------------------------------------- two LAN addresses, one of them near

  /** Three endpoints as they are written: a LAN address in our /24, one outside, and a public address. */
  datatype Scene = Scene(l: Locality, near: string, far: string, wan: string)

  predicate Reads(l: Locality, e: string, isPrivate: bool, inSubnet: bool) {
    && e != "" && Parse(l.lib, e).Some?
    && var p := Parse(l.lib, e).value;
    && p.text == e && !p.host.v6 && p.host.isPrivate == isPrivate && l.inSubnet(p.host) == inSubnet
  }

  predicate Proper(s: Scene) {
    && Reads(s.l, s.near, true, true) && Reads(s.l, s.far, true, false) && Reads(s.l, s.wan, false, false)
    && s.near != s.far && s.near != s.wan && s.far != s.wan && Parse(s.l.lib, "").None?
  }

  function Lan(e: string): Raw {
    Raw("lan4", e, "udp4", 1500, false)
  }

  function LanAt(e: string): Candidate {
    Candidate(Lan4, Udp4, e, 1500, false)
  }

  /** Two LAN addresses of one priority and the public endpoint, declared WAN. */
  function Ordered(s: Scene, first: string, second: string): Text {
    Text([Lan(first), Lan(second)], s.wan, "WAN")
  }

  predicate IsOrder(s: Scene, first: string, second: string) {
    (first == s.near && second == s.far) || (first == s.far && second == s.near)
  }

  lemma WanIsNotLan()
    ensures !DeclaresLan("WAN")
  {
    var l := seq(|"WAN"|, i requires 0 <= i < |"WAN"| => Lower("WAN"[i]));
    assert l[0] == 'w';
  }

  lemma CollectNew(lib: Library, v: Raw, vs: seq<Raw>, seen: set<Pair>, c: Candidate, r: seq<Candidate>)
    requires AgentEntry(lib, v) == Some(c) && PairOf(c) !in seen
    requires Collect(v => AgentEntry(lib, v), vs, seen + {PairOf(c)}) == Some(r)
    ensures Collect(v => AgentEntry(lib, v), [v] + vs, seen) == Some([c] + r)
  {
    assert ([v] + vs)[0] == v && ([v] + vs)[1..] == vs;
  }

  lemma CollectOld(lib: Library, v: Raw, vs: seq<Raw>, seen: set<Pair>, c: Candidate, r: seq<Candidate>)
    requires AgentEntry(lib, v) == Some(c) && PairOf(c) in seen
    requires Collect(v => AgentEntry(lib, v), vs, seen) == Some(r)
    ensures Collect(v => AgentEntry(lib, v), [v] + vs, seen) == Some(r)
  {
    assert ([v] + vs)[0] == v && ([v] + vs)[1..] == vs;
    assert seen + {PairOf(c)} == seen;
  }

  /** A list of two different pairs is accepted as it is, by priority. */
  lemma CollectTwo(lib: Library, v: Raw, w: Raw, x: Candidate, y: Candidate, seen: set<Pair>)
    requires AgentEntry(lib, v) == Some(x) && AgentEntry(lib, w) == Some(y) && PairOf(x) != PairOf(y) && seen == {}
    ensures Collect(v => AgentEntry(lib, v), [v, w], seen) == Some([x, y])
  {
    assert Collect(v => AgentEntry(lib, v), [], seen + {PairOf(x)} + {PairOf(y)}) == Some([]);
    CollectNew(lib, w, [], seen + {PairOf(x)}, y, []);
    assert [w] + [] == [w] && [y] + [] == [y];
    CollectNew(lib, v, [w], seen, x, [y]);
    assert [v] + [w] == [v, w] && [x] + [y] == [x, y];
  }

  lemma SortTwo(x: Candidate, y: Candidate)
    ensures SortByPriority([x, y]) == if y.priority <= x.priority then [x, y] else [y, x]
  {
    assert [x, y][1..] == [y] && [y][1..] == [];
    assert InsertByPriority(y, []) == [y] && InsertByPriority(x, []) == [x];
    assert SortByPriority([]) == [] && SortByPriority([y]) == [y];
    assert InsertByPriority(x, [y]) == if y.priority <= x.priority then [x] + [y] else [y] + InsertByPriority(x, []);
  }

  lemma ReadsLan(l: Locality, e: string, inSubnet: bool)
    requires Reads(l, e, true, inSubnet)
    ensures AgentEntry(l.lib, Lan(e)) == Some(LanAt(e))
    ensures Normalize(AdvertisedAs(l, LanAt(e))) == Some(LanAt(e))
  {
  }

  lemma AcceptTwo(lib: Library, v: Raw, w: Raw, x: Candidate, y: Candidate)
    requires AgentEntry(lib, v) == Some(x) && AgentEntry(lib, w) == Some(y) && PairOf(x) != PairOf(y)
    ensures AgentAccepts(lib, [v, w]) == Some(if y.priority <= x.priority then [x, y] else [y, x])
  {
    CollectTwo(lib, v, w, x, y, {});
    SortTwo(x, y);
  }

  lemma EitherOrderIsValid(s: Scene, first: string, second: string)
    requires Proper(s) && IsOrder(s, first, second)
    ensures Valid(s.l, Ordered(s, first, second)) == Some([LanAt(first), LanAt(second)])
  {
    ReadsLan(s.l, first, first == s.near);
    ReadsLan(s.l, second, second == s.near);
    AcceptTwo(s.l.lib, Lan(first), Lan(second), LanAt(first), LanAt(second));
  }

  lemma FirstOrderDecides(s: Scene, first: string, second: string)
    requires Proper(s) && IsOrder(s, first, second)
    ensures AllowsLan(s.l, Ordered(s, first, second)) <==> first == s.near
  {
    WanIsNotLan();
    assert FirstLan4([Lan(first), Lan(second)]) == first;
  }

  function ObservedAt(e: string): Candidate {
    Candidate(Observed4, Udp4, e, 700, true)
  }

  lemma GatherTwo(vs: seq<Advertised>, allowLan: bool)
    requires |vs| == 2
    ensures Gather(vs, allowLan, true) == Admit(vs[0], allowLan, true) + Admit(vs[1], allowLan, true)
  {
    assert vs[1..] == [vs[1]] && [vs[1]][1..] == [];
    assert Gather([vs[1]], allowLan, true) == Admit(vs[1], allowLan, true) + [];
  }

  lemma GatherLans(l: Locality, x: Candidate, y: Candidate)
    requires x.kind == y.kind == Lan4
    requires Normalize(AdvertisedAs(l, x)) == Some(x) && Normalize(AdvertisedAs(l, y)) == Some(y)
    ensures Gather(Advertise(l, [x, y]), true, true) == [x, y] && Gather(Advertise(l, [x, y]), false, true) == []
  {
    var vs := Advertise(l, [x, y]);
    assert vs[0] == AdvertisedAs(l, x) && vs[1] == AdvertisedAs(l, y);
    GatherTwo(vs, true);
    GatherTwo(vs, false);
  }

  /** What is gathered from either order, with and without the permission. */
  lemma Gathered(s: Scene, first: string, second: string)
    requires Proper(s) && IsOrder(s, first, second)
    ensures var vs := Advertise(s.l, [LanAt(first), LanAt(second)]);
            Gather(vs, true, true) == [LanAt(first), LanAt(second)] && Gather(vs, false, true) == []
  {
    ReadsLan(s.l, first, first == s.near);
    ReadsLan(s.l, second, second == s.near);
    GatherLans(s.l, LanAt(first), LanAt(second));
  }

  lemma WanIsObserved(s: Scene, allow: bool)
    requires Proper(s)
    ensures Legacy(LegacyOf(s.l, s.wan), allow, true) == [ObservedAt(s.wan)]
  {
  }

  lemma SelectedEitherWay(s: Scene, first: string, second: string)
    requires Proper(s) && IsOrder(s, first, second)
    ensures Intake(s.l, Ordered(s, first, second))
         == Some(Choose((if first == s.near then [LanAt(first), LanAt(second)] else []) + [ObservedAt(s.wan)]))
  {
    EitherOrderIsValid(s, first, second);
    FirstOrderDecides(s, first, second);
    Gathered(s, first, second);
    WanIsObserved(s, first == s.near);
  }

  lemma OneIsChosen(c: Candidate)
    requires c.endpoint != ""
    ensures Choose([c]) == [c]
  {
    assert [c][1..] == [] && Sort([c]) == [c];
    var seen: set<string> := {};
    assert Dedupe([], seen + {c.endpoint}) == [];
    assert Dedupe([c], seen) == [c];
  }

  /** With the near address first LAN addresses lead the selection, with the far one first there are none. */
  lemma OrdersDiffer(s: Scene)
    requires Proper(s)
    ensures Reordered(Ordered(s, s.near, s.far), Ordered(s, s.far, s.near))
    ensures Intake(s.l, Ordered(s, s.far, s.near)) == Some([ObservedAt(s.wan)])
    ensures var i := Intake(s.l, Ordered(s, s.near, s.far));
            i.Some? && i.value != [] && i.value[0].kind == Lan4 && Signature(i.value) != Signature([ObservedAt(s.wan)])
  {
    SelectedEitherWay(s, s.near, s.far);
    SelectedEitherWay(s, s.far, s.near);
    assert [] + [ObservedAt(s.wan)] == [ObservedAt(s.wan)];
    OneIsChosen(ObservedAt(s.wan));
    LanLeads(s.near, s.far, s.wan);
  }

  lemma FirstLetter(cs: seq<Candidate>)
    requires cs != []
    ensures Signature(cs) != "" && Signature(cs)[0] == Name(cs[0].kind)[0]
  {
  }

  lemma LanLeads(near: string, far: string, wan: string)
    requires near != ""
    ensures var chosen := Choose([LanAt(near), LanAt(far)] + [ObservedAt(wan)]);
            chosen != [] && chosen[0].kind == Lan4 && Signature(chosen) != Signature([ObservedAt(wan)])
  {
    var cs := [LanAt(near), LanAt(far)] + [ObservedAt(wan)];
    assert cs[0] == LanAt(near);
    TopIsHighest(cs, LanAt(near));
    FirstLetter(Choose(cs));
    FirstLetter([ObservedAt(wan)]);
  }

  /** The path is gone and a probe is started. */
  predicate LosesPath(r: OfferResult) {
    r.outcome == Accepted(true) && r.cell.peer.None?
  }

  /** The probe that ran has lost its generation. */
  predicate LosesClaim(c: Cell, r: OfferResult) {
    c.st.Some? && r.cell.st.Some? && r.cell.st.value.generation > c.st.value.generation
  }

  predicate ProbeRuns(c: Cell) {
    c.st.Some? && !Routed(c.peer) && c.st.value.running && c.st.value.generation <= c.gen
  }

  /** A repeated offer of the session that is held. */
  predicate Repeats(c: Cell, o: Offer) {
    && c.st.Some? && c.st.value.sessionId == o.sessionId && c.st.value.started == o.started
    && (o.instance == "" || o.instance == c.st.value.instance)
  }

  /** An offer of the held session with another signature that does not list the endpoint in use. */
  lemma ChangedOffer(c: Cell, o: Offer, now: real)
    requires Repeats(c, o) && o.candidates != [] && now >= 0.0 && c.st.value.signature != Signature(o.candidates)
    ensures var r := HandleOffer(c, o, now, true);
            && (UndisturbedDirect(c, now) && !EndpointListed(o.candidates, c.peer.value.endpoint) ==> LosesPath(r))
            && (ProbeRuns(c) ==> LosesClaim(c, r))
  {
    assert Rebase(c, o, now, true) == Stage(c, false);
  }

  /**
   * The failing input: a healthy direct path on the near LAN address is removed and probed anew, and a
   * running probe loses its claim, by a re-offer that only puts the far LAN address first.
   */
  lemma ReorderedOfferCanHarm(s: Scene, before: seq<Candidate>, c: Cell, o: Offer, now: real)
    requires Proper(s) && Intake(s.l, Ordered(s, s.near, s.far)) == Some(before)
    requires Intake(s.l, Ordered(s, s.far, s.near)) == Some(o.candidates)
    requires Repeats(c, o) && c.st.value.signature == Signature(before) && now >= 0.0
    ensures Reordered(Ordered(s, s.near, s.far), Ordered(s, s.far, s.near))
    ensures var r := HandleOffer(c, o, now, true);
            && (UndisturbedDirect(c, now) && c.peer.value.endpoint == s.near ==> LosesPath(r))
            && (ProbeRuns(c) ==> LosesClaim(c, r))
  {
    OrdersDiffer(s);
    assert !EndpointListed(o.candidates, s.near);
    ChangedOffer(c, o, now);
  }

  // ---------------------------------------------------------------- one pair named twice

  function Mapped(e: string, priority: int): Raw {
    Raw("mapped4", e, "udp4", priority, false)
  }

  function MappedAt(e: string, priority: int): Candidate {
    Candidate(Mapped4, Udp4, e, priority, false)
  }

  /** One endpoint with two priorities, and another endpoint between them. */
  function Twice(s: Scene, first: int, second: int): Text {
    Text([Mapped(s.near, first), Mapped(s.near, second), Mapped(s.far, 500)], "", "WAN")
  }

  lemma ReadsMapped(l: Locality, e: string, priority: int, inSubnet: bool)
    requires Reads(l, e, true, inSubnet) && 0 < priority <= 2000
    ensures AgentEntry(l.lib, Mapped(e, priority)) == Some(MappedAt(e, priority))
    ensures Normalize(AdvertisedAs(l, MappedAt(e, priority))) == Some(MappedAt(e, priority))
  {
  }

  /** Of three entries the second repeats the pair of the first. */
  lemma CollectTwice(lib: Library, u: Raw, v: Raw, w: Raw, x: Candidate, z: Candidate, y: Candidate)
    requires AgentEntry(lib, u) == Some(x) && AgentEntry(lib, v) == Some(z) && AgentEntry(lib, w) == Some(y)
    requires PairOf(x) == PairOf(z) != PairOf(y)
    ensures AgentAccepts(lib, [u, v, w]) == Some(if y.priority <= x.priority then [x, y] else [y, x])
  {
    var none: set<Pair> := {};
    var one := none + {PairOf(x)};
    assert Collect(v => AgentEntry(lib, v), [], one + {PairOf(y)}) == Some([]);
    CollectNew(lib, w, [], one, y, []);
    assert [w] + [] == [w] && [y] + [] == [y];
    CollectOld(lib, v, [w], one, z, [y]);
    CollectNew(lib, u, [v] + [w], none, x, [y]);
    assert [u] + ([v] + [w]) == [u, v, w] && [x] + [y] == [x, y];
    SortTwo(x, y);
  }

  lemma FirstOfPairCounts(s: Scene, first: int, second: int)
    requires Proper(s) && ((first == 800 && second == 100) || (first == 100 && second == 800))
    ensures var x, y := MappedAt(s.near, first), MappedAt(s.far, 500);
            Valid(s.l, Twice(s, first, second)) == Some(if first == 800 then [x, y] else [y, x])
  {
    ReadsMapped(s.l, s.near, first, true);
    ReadsMapped(s.l, s.near, second, true);
    ReadsMapped(s.l, s.far, 500, false);
    CollectTwice(s.l.lib, Mapped(s.near, first), Mapped(s.near, second), Mapped(s.far, 500),
                 MappedAt(s.near, first), MappedAt(s.near, second), MappedAt(s.far, 500));
  }

  /** Mapped addresses are selected with and without the LAN permission. */
  lemma SelectTwo(l: Locality, x: Candidate, y: Candidate, allow: bool)
    requires Normalize(AdvertisedAs(l, x)) == Some(x) && Normalize(AdvertisedAs(l, y)) == Some(y)
    requires x.kind == y.kind == Mapped4 && x.priority > y.priority && x.endpoint != "" && LegacyOf(l, "").None?
    ensures var r := Selected(l, [x, y], "", allow); r != [] && r[0].endpoint == x.endpoint
  {
    var cs := [x, y];
    var vs := Advertise(l, cs);
    assert vs[0] == AdvertisedAs(l, x) && vs[1] == AdvertisedAs(l, y);
    GatherTwo(vs, allow);
    assert Gather(vs, allow, true) == cs && cs + [] == cs;
    TopIsHighest(cs, x);
  }

  lemma TwiceIsSelected(s: Scene, first: int, second: int)
    requires Proper(s) && ((first == 800 && second == 100) || (first == 100 && second == 800))
    ensures var i := Intake(s.l, Twice(s, first, second));
            i.Some? && i.value != [] && i.value[0].endpoint == if first == 800 then s.near else s.far
  {
    FirstOfPairCounts(s, first, second);
    var allow := AllowsLan(s.l, Twice(s, first, second));
    ReadsMapped(s.l, s.near, first, true);
    ReadsMapped(s.l, s.far, 500, false);
    if first == 800 {
      SelectTwo(s.l, MappedAt(s.near, 800), MappedAt(s.far, 500), allow);
    } else {
      SelectTwo(s.l, MappedAt(s.far, 500), MappedAt(s.near, 100), allow);
    }
  }

  /** Such a list shows its order although no types tie: of a pair that is named twice the first counts. */
  lemma DuplicatesShowTheOrder(s: Scene)
    requires Proper(s)
    ensures var i, j := Intake(s.l, Twice(s, 800, 100)), Intake(s.l, Twice(s, 100, 800));
            && Reordered(Twice(s, 800, 100), Twice(s, 100, 800))
            && i.Some? && j.Some? && i.value != [] && j.value != [] && i.value[0].endpoint != j.value[0].endpoint
  {
    TwiceIsSelected(s, 800, 100);
    TwiceIsSelected(s, 100, 800);
  }

  // ---------------------------------------------------------------- a concrete scene

  const FAR := Host("192.168.7.2", false, true, false, false, false)
  const NEAR := Host("192.168.1.2", false, true, false, false, false)
  const WAN := Host("8.8.4.4", false, false, true, false, false)

  function TheLibrary(): Library {
    Library(t => if t == FAR.text then Some(FAR) else if t == NEAR.text then Some(NEAR)
                 else if t == WAN.text then Some(WAN) else None,
            n => if n == "1" then Some(1) else None)
  }

  function TheScene(): Scene {
    Scene(Locality(TheLibrary(), h => false, h => h == NEAR), Format(NEAR, 1), Format(FAR, 1), Format(WAN, 1))
  }

  lemma ReadsOne(l: Locality, h: Host, inSubnet: bool)
    requires h.text != "" && ':' !in h.text && '[' !in h.text && ']' !in h.text && !h.v6 && !h.isReserved
    requires l.lib.address(h.text) == Some(h) && l.lib.number("1") == Some(1) && l.inSubnet(h) == inSubnet
    ensures Reads(l, Format(h, 1), h.isPrivate, inSubnet)
  {
    assert Decimal(1) == "1";
    SplitFormat(h, 1);
  }

  lemma FormatsDiffer(g: Host, h: Host, i: nat)
    requires !g.v6 && !h.v6 && i < |g.text| && i < |h.text| && g.text[i] != h.text[i]
    ensures Format(g, 1) != Format(h, 1)
  {
    assert Format(g, 1)[i] == g.text[i] && Format(h, 1)[i] == h.text[i];
  }

  lemma LooksUp()
    ensures var lib := TheLibrary();
            lib.address(NEAR.text) == Some(NEAR) && lib.address(FAR.text) == Some(FAR) && lib.address(WAN.text) == Some(WAN)
    ensures NEAR.text[8] != FAR.text[8] && NEAR.text[0] != WAN.text[0] && FAR.text[0] != WAN.text[0]
  {
    assert NEAR.text[8] == '1' && FAR.text[8] == '7' && WAN.text[0] == '8' && NEAR.text[0] == '1' && FAR.text[0] == '1';
  }

  lemma PlainTexts(h: Host)
    requires h == NEAR || h == FAR || h == WAN
    ensures |h.text| > 6 && (h != WAN ==> |h.text| > 8) && ':' !in h.text && '[' !in h.text && ']' !in h.text
  {
  }

  lemma TheSceneIsProper()
    ensures Proper(TheScene())
  {
    LooksUp();
    PlainTexts(NEAR);
    PlainTexts(FAR);
    PlainTexts(WAN);
    FormatsDiffer(NEAR, FAR, 8);
    FormatsDiffer(NEAR, WAN, 0);
    FormatsDiffer(FAR, WAN, 0);
    var l := TheScene().l;
    ReadsOne(l, NEAR, true);
    ReadsOne(l, FAR, false);
    ReadsOne(l, WAN, false);
    assert Split("") == None;
  }
}
