/**
 * From the text of an offer to the candidates the agent acts on: validation, the decision whether LAN
 * addresses are tried, selection; and what a reordered list changes.
 */
module OfferIntake {
  import opened Basics
  import opened Candidates
  import opened CandidateOrder
  import opened CandidateSelection
  import opened Endpoints
  import opened CandidateExchange
  import opened PeerRegions

  /**
   * What the agent asks its host and its libraries: `usable6` is the verdict on a global IPv6 address,
   * `inSubnet` says that the agent's own address is a private IPv4 one with this address in its /24.
   */
  datatype Locality = Locality(lib: Library, usable6: Host -> bool, inSubnet: Host -> bool)

  /** The fields of an offer that its candidates come from; "" for no endpoint. */
  datatype Text = Text(candidates: seq<Raw>, endpoint: string, endpointType: string)

  function Lower(c: char): char {
    if 'A' <= c <= 'Z' then c - 'A' + 'a' else c
  }

  /** `str(endpoint_type).lower() in ("lan", "lan4")`. */
  predicate DeclaresLan(t: string) {
    var l := seq(|t|, i requires 0 <= i < |t| => Lower(t[i]));
    l == "lan" || l == "lan4"
  }

  /** The endpoint of the first lan4 entry as it was sent, or "". */
  function FirstLan4(vs: seq<Raw>): string {
    if vs == [] then "" else if vs[0].kind == "lan4" then vs[0].endpoint else FirstLan4(vs[1..])
  }

  /** `same_private_subnet(local_ipv4(), endpoint)`. */
  predicate Near(l: Locality, endpoint: string) {
    var e := Parse(l.lib, endpoint);
    e.Some? && !e.value.host.v6 && e.value.host.isPrivate && l.inSubnet(e.value.host)
  }

  predicate AllowsLan(l: Locality, t: Text) {
    DeclaresLan(t.endpointType) || Near(l, FirstLan4(t.candidates))
  }

  function AddressOf(l: Locality, endpoint: string): Option<Address> {
    match Parse(l.lib, endpoint)
    case None => None
    case Some(e) => Some(Address(e.text, e.host.v6, e.host.isPrivate, l.usable6(e.host)))
  }

  function AdvertisedAs(l: Locality, c: Candidate): Advertised {
    Advertised(Some(c.kind), AddressOf(l, c.endpoint), c.priority, c.verified)
  }

  /** The validated list as the selection reads it. */
  function Advertise(l: Locality, cs: seq<Candidate>): seq<Advertised> {
    seq(|cs|, i requires 0 <= i < |cs| => AdvertisedAs(l, cs[i]))
  }

  /** The normalized endpoint of the offer. */
  function LegacyOf(l: Locality, endpoint: string): Option<Address> {
    var e := Parse(l.lib, endpoint);
    if e.None? then None else AddressOf(l, e.value.text)
  }

  /** Whether validation passes, and what it gives. */
  function Valid(l: Locality, t: Text): Option<seq<Candidate>> {
    if t.endpoint != "" && Parse(l.lib, t.endpoint).None? then None else AgentAccepts(l.lib, t.candidates)
  }

  function Selected(l: Locality, cs: seq<Candidate>, endpoint: string, allowLan: bool): seq<Candidate> {
    SelectFrom(Advertise(l, cs), LegacyOf(l, endpoint), allowLan, true)
  }

  /** The candidates of an offer; nothing for a ValueError. */
  function Intake(l: Locality, t: Text): Option<seq<Candidate>> {
    match Valid(l, t)
    case None => None
    case Some(cs) => Some(Selected(l, cs, t.endpoint, AllowsLan(l, t)))
  }

  // ---------------------------------------------------------------- the loops

  method PeerLanEndpoint(vs: seq<Raw>) returns (endpoint: string)
    ensures endpoint == FirstLan4(vs)
  {
    endpoint := "";
    assert vs[0..] == vs;
    for i := 0 to |vs|
      invariant FirstLan4(vs) == FirstLan4(vs[i..])
    {
      assert vs[i..][0] == vs[i] && vs[i..][1..] == vs[i + 1..];
      if vs[i].kind == "lan4" {
        return vs[i].endpoint;
      }
    }
    assert vs[|vs|..] == [];
  }

  /** `handle_offer` from the validation to the selection. */
  method ReadOffer(l: Locality, t: Text) returns (r: Option<seq<Candidate>>)
    ensures r == Intake(l, t)
  {
    var advertised := ValidateCandidates(v => AgentEntry(l.lib, v), t.candidates);
    if advertised == None || (t.endpoint != "" && Parse(l.lib, t.endpoint) == None) {
      return None;
    }
    var allowLan := DeclaresLan(t.endpointType);
    if !allowLan {
      var peerLan := PeerLanEndpoint(t.candidates);
      if Near(l, peerLan) {
        allowLan := true;
      }
    }
    var selected := SelectProbeCandidates(Advertise(l, advertised.value), LegacyOf(l, t.endpoint), allowLan, true);
    r := Some(selected);
  }

  // ---------------------------------------------------------------- validation and order

  /** Entries that name the same pair are read alike; without it the first one of a pair decides. */
  predicate PairsAgree(lib: Library, vs: seq<Raw>) {
    forall v, w :: v in vs && w in vs && AgentEntry(lib, v).Some? && AgentEntry(lib, w).Some?
                   && PairOf(AgentEntry(lib, v).value) == PairOf(AgentEntry(lib, w).value) ==>
                   AgentEntry(lib, v) == AgentEntry(lib, w)
  }

  predicate ReadIn(lib: Library, vs: seq<Raw>, c: Candidate) {
    exists v :: v in vs && AgentEntry(lib, v) == Some(c)
  }

  lemma {:induction false} CollectFails(lib: Library, vs: seq<Raw>, seen: set<Pair>)
    ensures Collect(v => AgentEntry(lib, v), vs, seen).None? <==> exists v :: v in vs && AgentEntry(lib, v).None?
  {
    if vs != [] {
      var c := AgentEntry(lib, vs[0]);
      if c.Some? { CollectFails(lib, vs[1..], seen + {PairOf(c.value)}); }
      assert vs[0] in vs;
      assert forall v :: v in vs <==> v == vs[0] || v in vs[1..];
    }
  }

  /** What is collected is every new pair that is read, once. */
  lemma {:induction false} CollectIsASet(lib: Library, vs: seq<Raw>, seen: set<Pair>)
    requires PairsAgree(lib, vs) && Collect(v => AgentEntry(lib, v), vs, seen).Some?
    ensures var r := Collect(v => AgentEntry(lib, v), vs, seen).value;
            DistinctPairs(r) && forall c :: c in r <==> ReadIn(lib, vs, c) && PairOf(c) !in seen
  {
    if vs != [] {
      var h := AgentEntry(lib, vs[0]).value;
      var seen' := seen + {PairOf(h)};
      CollectIsASet(lib, vs[1..], seen');
      var rest := Collect(v => AgentEntry(lib, v), vs[1..], seen').value;
      var r := Collect(v => AgentEntry(lib, v), vs, seen).value;
      assert r == if PairOf(h) in seen then rest else [h] + rest;
      assert vs[0] in vs;
      forall c ensures c in r <==> ReadIn(lib, vs, c) && PairOf(c) !in seen {
        HeadOrTail(lib, vs, c);
        if ReadIn(lib, vs, c) && PairOf(c) == PairOf(h) {
          var v :| v in vs && AgentEntry(lib, v) == Some(c);
          assert AgentEntry(lib, v) == AgentEntry(lib, vs[0]);
        }
      }
    }
  }

  lemma HeadOrTail(lib: Library, vs: seq<Raw>, c: Candidate)
    requires vs != []
    ensures ReadIn(lib, vs, c) <==> AgentEntry(lib, vs[0]) == Some(c) || ReadIn(lib, vs[1..], c)
  {
    assert forall v :: v in vs <==> v == vs[0] || v in vs[1..];
  }

  lemma SameMembersSameCounts(x: seq<Candidate>, y: seq<Candidate>)
    requires DistinctPairs(x) && DistinctPairs(y) && forall c :: c in x <==> c in y
    ensures multiset(x) == multiset(y)
  {
    forall c ensures multiset(x)[c] == multiset(y)[c] {
      CountAtMostOne(x, c);
      CountAtMostOne(y, c);
      assert (c in x <==> c in multiset(x)) && (c in y <==> c in multiset(y));
    }
  }

  /** Validation accepts a reordered list alike, and gives the same entries. */
  lemma AcceptedAlike(lib: Library, a: seq<Raw>, b: seq<Raw>)
    requires multiset(a) == multiset(b) && PairsAgree(lib, a)
    ensures AgentAccepts(lib, a).None? <==> AgentAccepts(lib, b).None?
    ensures AgentAccepts(lib, a).Some? ==> multiset(AgentAccepts(lib, a).value) == multiset(AgentAccepts(lib, b).value)
  {
    assert |a| == |multiset(a)| == |multiset(b)| == |b|;
    assert forall v :: v in a <==> v in multiset(a);
    assert forall v :: v in b <==> v in multiset(b);
    CollectFails(lib, a, {});
    CollectFails(lib, b, {});
    if AgentAccepts(lib, a).Some? {
      CollectIsASet(lib, a, {});
      CollectIsASet(lib, b, {});
      var x := Collect(v => AgentEntry(lib, v), a, {}).value;
      var y := Collect(v => AgentEntry(lib, v), b, {}).value;
      assert forall c :: ReadIn(lib, a, c) <==> ReadIn(lib, b, c);
      SameMembersSameCounts(x, y);
      SortByPrioritySorts(x);
      SortByPrioritySorts(y);
    }
  }

  lemma AdvertiseConcat(l: Locality, x: seq<Candidate>, y: seq<Candidate>)
    ensures Advertise(l, x + y) == Advertise(l, x) + Advertise(l, y)
  {
  }

  lemma {:induction false} AdvertisePermutes(l: Locality, x: seq<Candidate>, y: seq<Candidate>)
    requires multiset(x) == multiset(y)
    ensures multiset(Advertise(l, x)) == multiset(Advertise(l, y))
  {
    if x == [] {
      NoneLeft(y);
    } else {
      var j := HeadIn(x, y);
      var pre, post := y[..j], y[j + 1..];
      AdvertisePermutes(l, x[1..], pre + post);
      AdvertiseConcat(l, [x[0]], x[1..]);
      AdvertiseConcat(l, pre, post);
      AdvertiseConcat(l, pre, [y[j]] + post);
      AdvertiseConcat(l, [y[j]], post);
      assert x == [x[0]] + x[1..];
      assert Advertise(l, [x[0]]) == [AdvertisedAs(l, x[0])] == Advertise(l, [y[j]]);
    }
  }

  // ---------------------------------------------------------------- what the order decides

  /** The same offer with its list in another order. */
  predicate Reordered(t: Text, u: Text) {
    u == t.(candidates := u.candidates) && multiset(t.candidates) == multiset(u.candidates)
  }

  /** No two types tie on priority and endpoint, whether LAN addresses are tried or not. */
  predicate NoTies(l: Locality, cs: seq<Candidate>, endpoint: string) {
    forall allow: bool :: TiesAgree(Gather(Advertise(l, cs), allow, true) + Legacy(LegacyOf(l, endpoint), allow, true))
  }

  /** The permission to try LAN addresses shows in the signature of what is selected. */
  predicate LanShows(l: Locality, cs: seq<Candidate>, endpoint: string) {
    Signature(Selected(l, cs, endpoint, true)) != Signature(Selected(l, cs, endpoint, false))
  }

  lemma SelectedAlike(l: Locality, x: seq<Candidate>, y: seq<Candidate>, endpoint: string, allow: bool)
    requires multiset(x) == multiset(y) && NoTies(l, x, endpoint)
    ensures Signature(Selected(l, x, endpoint, allow)) == Signature(Selected(l, y, endpoint, allow))
    ensures Selected(l, x, endpoint, allow) == [] <==> Selected(l, y, endpoint, allow) == []
  {
    AdvertisePermutes(l, x, y);
    SignatureIgnoresOrder(Advertise(l, x), Advertise(l, y), LegacyOf(l, endpoint), allow, true);
  }

  /**
   * A reordered offer is accepted alike, and its signature is the same exactly if both orders get the
   * same LAN permission or the permission does not show.
   */
  lemma ReorderedSignature(l: Locality, t: Text, u: Text)
    requires Reordered(t, u) && PairsAgree(l.lib, t.candidates)
    ensures Valid(l, u).Some? <==> Valid(l, t).Some?
    ensures Valid(l, t).Some? && NoTies(l, Valid(l, t).value, t.endpoint) ==>
              (Signature(Intake(l, u).value) == Signature(Intake(l, t).value)
               <==> AllowsLan(l, t) == AllowsLan(l, u) || !LanShows(l, Valid(l, t).value, t.endpoint))
  {
    AcceptedAlike(l.lib, t.candidates, u.candidates);
    if Valid(l, t).Some? && NoTies(l, Valid(l, t).value, t.endpoint) {
      SelectedAlike(l, Valid(l, t).value, Valid(l, u).value, t.endpoint, AllowsLan(l, u));
    }
  }

  lemma {:induction false} FirstLan4Is(vs: seq<Raw>)
    ensures (FirstLan4(vs) == "" && forall v :: v in vs ==> v.kind != "lan4")
            || exists v :: v in vs && v.kind == "lan4" && v.endpoint == FirstLan4(vs)
  {
    if vs != [] {
      FirstLan4Is(vs[1..]);
      assert vs[0] in vs;
      assert forall v :: v in vs <==> v == vs[0] || v in vs[1..];
    }
  }

  /** All lan4 entries get the same subnet verdict. */
  predicate OneVerdict(l: Locality, vs: seq<Raw>) {
    forall v, w :: v in vs && w in vs && v.kind == "lan4" && w.kind == "lan4" ==> Near(l, v.endpoint) == Near(l, w.endpoint)
  }

  /** No order of the list changes the LAN permission. */
  ghost predicate OrderFree(l: Locality, t: Text) {
    forall vs: seq<Raw> :: multiset(vs) == multiset(t.candidates) ==> AllowsLan(l, t.(candidates := vs)) == AllowsLan(l, t)
  }

  lemma SameMembers(a: seq<Raw>, b: seq<Raw>, v: Raw)
    requires multiset(a) == multiset(b)
    ensures v in a <==> v in b
  {
    assert (v in a <==> v in multiset(a)) && (v in b <==> v in multiset(b));
  }

  /** The permission is independent of the order exactly for a declared LAN or a single verdict. */
  lemma OrderFreeExactly(l: Locality, t: Text)
    ensures OrderFree(l, t) <==> DeclaresLan(t.endpointType) || OneVerdict(l, t.candidates)
  {
    if DeclaresLan(t.endpointType) || OneVerdict(l, t.candidates) {
      forall vs: seq<Raw> | multiset(vs) == multiset(t.candidates)
        ensures AllowsLan(l, t.(candidates := vs)) == AllowsLan(l, t)
      {
        FirstLan4Is(vs);
        FirstLan4Is(t.candidates);
        forall v ensures v in vs <==> v in t.candidates { SameMembers(vs, t.candidates, v); }
      }
    } else {
      var v, w :| v in t.candidates && w in t.candidates && v.kind == "lan4" && w.kind == "lan4"
                  && Near(l, v.endpoint) != Near(l, w.endpoint);
      var a := ToFront(t.candidates, v);
      var b := ToFront(t.candidates, w);
      assert AllowsLan(l, t.(candidates := a)) == Near(l, v.endpoint);
      assert AllowsLan(l, t.(candidates := b)) == Near(l, w.endpoint);
      assert multiset(a) == multiset(b) == multiset(t.candidates);
    }
  }

  lemma ToFront(vs: seq<Raw>, v: Raw) returns (r: seq<Raw>)
    requires v in vs
    ensures multiset(r) == multiset(vs) && r != [] && r[0] == v
  {
    var i :| 0 <= i < |vs| && vs[i] == v;
    TakeOut(vs, i);
    r := [v] + (vs[..i] + vs[i + 1..]);
  }

  // ---------------------------------------------------------------- a reordered re-offer

  predicate UndisturbedDirect(c: Cell, now: real) {
    && c.st.Some? && c.st.value.mode == Direct && !c.st.value.running && Healthy(c.peer, now)
    && c.st.value.endpoint == c.peer.value.endpoint
  }

  /** The probe that runs keeps its claim. */
  predicate KeepsProbe(c: Cell, r: OfferResult)
    requires c.st.Some?
  {
    && r.cell.st.Some? && r.cell.st.value.running && r.cell.st.value.generation == c.st.value.generation
    && r.cell.peer == c.peer
  }

  /** The direct path stays as it is and no probe is started. */
  predicate KeepsDirect(r: OfferResult, now: real) {
    UndisturbedDirect(r.cell, now) && r.outcome != Aborted && r.outcome != Accepted(true)
  }

  /** What a repeated offer of the held session does, by its signature. */
  lemma RepeatedOffer(c: Cell, o: Offer, now: real, wgOk: bool)
    requires c.st.Some? && c.st.value.sessionId == o.sessionId && c.st.value.started == o.started
    requires (o.instance == "" || o.instance == c.st.value.instance) && o.candidates != []
    ensures var r, same := HandleOffer(c, o, now, wgOk), c.st.value.signature == Signature(o.candidates);
            && (!Routed(c.peer) && c.st.value.running && c.st.value.generation <= c.gen ==>
                  (KeepsProbe(c, r) <==> same))
            && (UndisturbedDirect(c, now) ==>
                  (KeepsDirect(r, now) <==> same || EndpointListed(o.candidates, c.peer.value.endpoint)))
  {
    assert Rebase(c, o, now, wgOk) == Stage(c, false);
  }

  /**
   * A repeated offer whose list is only reordered is harmless exactly if both orders get the same LAN
   * permission, or the permission does not show, or nothing is selected and the offer is refused; a
   * healthy path survives a change also if its endpoint is still listed.
   */
  lemma ReorderedOfferIsHarmless(c: Cell, o: Offer, now: real, wgOk: bool, l: Locality, t: Text, u: Text)
    requires Reordered(t, u) && PairsAgree(l.lib, t.candidates) && Valid(l, t).Some?
    requires NoTies(l, Valid(l, t).value, t.endpoint)
    requires c.st.Some? && c.st.value.signature == Signature(Intake(l, t).value) && c.st.value.generation <= c.gen
    requires c.st.value.sessionId == o.sessionId && c.st.value.started == o.started
    requires o.instance == "" || o.instance == c.st.value.instance
    requires Intake(l, u) == Some(o.candidates)
    ensures var r := HandleOffer(c, o, now, wgOk);
            var harmless := || AllowsLan(l, t) == AllowsLan(l, u) || !LanShows(l, Valid(l, t).value, t.endpoint)
                            || o.candidates == [];
            && (!Routed(c.peer) && c.st.value.running ==> (KeepsProbe(c, r) <==> harmless))
            && (UndisturbedDirect(c, now) ==>
                  (KeepsDirect(r, now) <==> harmless || EndpointListed(o.candidates, c.peer.value.endpoint)))
  {
    ReorderedSignature(l, t, u);
    if o.candidates != [] { RepeatedOffer(c, o, now, wgOk); }
  }
}
