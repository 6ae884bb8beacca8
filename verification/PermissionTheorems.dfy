/** When the permission to try LAN addresses shows in what is selected. */
module PermissionTheorems {
  import opened Basics
  import opened Candidates
  import opened CandidateOrder
  import opened CandidateSelection
  import opened Endpoints
  import opened CandidateExchange
  import opened SignatureTheorems
  import opened OfferIntake

  predicate Before(a: Candidate, b: Candidate) {
    Le(a, b) && !Le(b, a)
  }

  predicate HasLan(cs: seq<Candidate>) {
    exists i :: 0 <= i < |cs| && cs[i].kind == Lan4
  }

  /** A better LAN entry has the endpoint of `c`. */
  predicate ShadowedBy(cs: seq<Candidate>, c: Candidate) {
    exists a :: a in cs && a.kind == Lan4 && a.endpoint == c.endpoint && Before(a, c)
  }

  // ---------------------------------------------------------------- two ranked lists

  /** `r` is ranked with LAN entries and `q` without: `q` has what `r` has and what LAN entries shadow in `r`. */
  predicate Widens(r: seq<Candidate>, q: seq<Candidate>) {
    && StrictlySorted(r) && DistinctEndpoints(r) && StrictlySorted(q) && DistinctEndpoints(q)
    && (forall c :: c in r && c.kind != Lan4 ==> c in q)
    && (forall c :: c in q ==> c.kind != Lan4 && (c in r || ShadowedBy(r, c)))
  }

  lemma IndexOf(cs: seq<Candidate>, c: Candidate) returns (i: nat)
    requires c in cs
    ensures i < |cs| && cs[i] == c
  {
    i :| 0 <= i < |cs| && cs[i] == c;
  }

  /** What both lists have in common goes on until a LAN entry comes. */
  lemma NextShared(r: seq<Candidate>, q: seq<Candidate>, n: nat)
    requires Widens(r, q) && n < |r| && (forall j :: 0 <= j <= n ==> r[j].kind != Lan4)
    requires n <= |q| && forall j :: 0 <= j < n ==> q[j] == r[j]
    ensures n < |q| && q[n] == r[n]
  {
    var j := IndexOf(q, r[n]);
  }

  /** Up to the first LAN entry both lists are the same. */
  lemma {:induction false} SharedPrefix(r: seq<Candidate>, q: seq<Candidate>, i: nat)
    requires Widens(r, q) && i <= |r| && !HasLan(r[..i])
    ensures i <= |q| && q[..i] == r[..i]
  {
    if i > 0 {
      var n := i - 1;
      assert forall j :: 0 <= j < i ==> r[j] == r[..i][j] && r[j].kind != Lan4;
      SharedPrefix(r, q, n);
      assert forall j :: 0 <= j < n ==> q[j] == q[..n][j] == r[j];
      NextShared(r, q, n);
      assert q[..i] == q[..n] + [q[n]] && r[..i] == r[..n] + [r[n]];
    }
  }

  /** The best observed4 stays the best, unless a LAN entry shadows it. */
  lemma ObservedKept(r: seq<Candidate>, q: seq<Candidate>)
    requires Widens(r, q)
    ensures match FirstObserved(q)
            case None => FirstObserved(r) == None
            case Some(o) =>
              && (o in r ==> FirstObserved(r) == Some(o))
              && (o !in r && FirstObserved(r).Some? ==> FirstObserved(r).value.endpoint != o.endpoint)
  {
    BestObservedIsFirst(r);
    BestObservedIsFirst(q);
    if FirstObserved(r).Some? {
      var j := IndexOf(q, FirstObserved(r).value);
    }
    if FirstObserved(q).Some? && FirstObserved(q).value in r {
      var i := IndexOf(r, FirstObserved(q).value);
    }
  }

  lemma NothingElse(r: seq<Candidate>, q: seq<Candidate>, c: Candidate)
    requires Widens(r, q) && !HasLan(r) && c in q
    ensures c in r
  {
  }

  lemma NoMore(r: seq<Candidate>, q: seq<Candidate>)
    requires Widens(r, q) && !HasLan(r)
    ensures q == r
  {
    assert r[..|r|] == r;
    SharedPrefix(r, q, |r|);
    if |q| > |r| { NothingElse(r, q, q[|r|]); }
  }

  /** The best observed4 without the permission is missing with it. */
  predicate Hidden(r: seq<Candidate>, q: seq<Candidate>) {
    FirstObserved(q).Some? && FirstObserved(q).value !in r
  }

  lemma HighObserved(r: seq<Candidate>, q: seq<Candidate>)
    requires Widens(r, q) && |r| > 5 && !HasLan(r[..5]) && BestObserved(r) < 5
    ensures ExactSelection(q) == r[..5] && !Hidden(r, q)
  {
    SharedPrefix(r, q, 5);
    BestObservedIsFirst(r);
    BestObservedIsFirst(q);
    assert forall j :: 0 <= j < 5 ==> q[j] == q[..5][j] == r[..5][j] == r[j];
    assert BestObserved(q) == BestObserved(r);
    if |q| == 5 { assert q == q[..5]; }
  }

  lemma NoObserved(r: seq<Candidate>, q: seq<Candidate>)
    requires Widens(r, q) && |r| > 5 && !HasLan(r[..5]) && BestObserved(r) == |r|
    ensures SameChoice(r[..5], ExactSelection(q)) <==> !Hidden(r, q)
  {
    SharedPrefix(r, q, 5);
    ObservedKept(r, q);
    BestObservedIsFirst(r);
    BestObservedIsFirst(q);
    assert forall j :: 0 <= j < 5 ==> q[j] == q[..5][j] == r[..5][j] == r[j];
    if |q| == 5 {
      assert q == q[..5];
    } else if BestObserved(q) < |q| {
      assert ExactSelection(q)[4] == q[BestObserved(q)] && r[..5][4] == q[4];
    }
  }

  lemma LowObservedShape(r: seq<Candidate>, q: seq<Candidate>)
    requires Widens(r, q) && |r| > 5 && !HasLan(r[..4]) && 5 <= BestObserved(r) < |r|
    ensures FirstObserved(q).Some? && |q| >= 5 && q[..4] == r[..4]
    ensures ExactSelection(q) == r[..4] + [FirstObserved(q).value]
  {
    SharedPrefix(r, q, 4);
    BestObservedIsFirst(r);
    BestObservedIsFirst(q);
    assert forall j :: 0 <= j < 4 ==> q[j] == q[..4][j] == r[..4][j] == r[j];
    var j := IndexOf(q, r[BestObserved(r)]);
    assert 4 <= BestObserved(q) <= j;
    FourAndObserved(q);
  }

  lemma FourAndFifth(q: seq<Candidate>)
    requires |q| >= 5
    ensures q[..5] == q[..4] + [q[4]] && (|q| == 5 ==> q == q[..5])
  {
  }

  lemma FourAndObserved(q: seq<Candidate>)
    requires 4 <= BestObserved(q) < |q|
    ensures ExactSelection(q) == q[..4] + [q[BestObserved(q)]]
  {
    FourAndFifth(q);
    var n := BestObserved(q);
    if n == 4 { assert [q[4]] == [q[n]]; }
  }

  lemma LowObserved(r: seq<Candidate>, q: seq<Candidate>)
    requires Widens(r, q) && |r| > 5 && !HasLan(r[..4]) && 5 <= BestObserved(r) < |r|
    ensures SameChoice(r[..4] + [r[BestObserved(r)]], ExactSelection(q)) <==> !Hidden(r, q)
  {
    LowObservedShape(r, q);
    ObservedKept(r, q);
    BestObservedIsFirst(r);
    BestObservedIsFirst(q);
    SameButLast(r[..4], r[BestObserved(r)], FirstObserved(q).value);
  }

  lemma SameButLast(cs: seq<Candidate>, c: Candidate, d: Candidate)
    ensures SameChoice(cs + [c], cs + [d]) <==> c.kind == d.kind && c.endpoint == d.endpoint
  {
    var x, y, n := cs + [c], cs + [d], |cs|;
    assert x[n] == c && y[n] == d;
    assert forall i :: 0 <= i < n ==> x[i] == y[i];
  }

  /** Without a LAN entry in the selection, it differs exactly if the best observed4 is hidden. */
  lemma ChosenAlike(r: seq<Candidate>, q: seq<Candidate>)
    requires Widens(r, q) && !HasLan(ExactSelection(r))
    ensures SameChoice(ExactSelection(r), ExactSelection(q)) <==> !Hidden(r, q)
  {
    BestObservedIsFirst(r);
    BestObservedIsFirst(q);
    if |r| <= 5 {
      NoMore(r, q);
    } else if BestObserved(r) < 5 {
      HighObserved(r, q);
    } else if BestObserved(r) == |r| {
      NoObserved(r, q);
    } else {
      var d := r[..4] + [r[BestObserved(r)]];
      assert forall j :: 0 <= j < 4 ==> r[..4][j] == d[j];
      LowObserved(r, q);
    }
  }

  // ---------------------------------------------------------------- the lists they come from

  /** The entries without the permission: all but the LAN ones, and at most some that LAN entries shadow. */
  predicate Narrows(a: seq<Candidate>, b: seq<Candidate>) {
    && (forall c :: c in a && c.kind != Lan4 ==> c in b)
    && (forall c :: c in b ==> c.kind != Lan4 && (c in a || ShadowedBy(a, c)))
  }

  predicate OneOfTies(cs: seq<Candidate>) {
    forall c, d :: c in cs && d in cs && Ties(c, d) ==> c == d
  }

  lemma Representative(c: Candidate, r: seq<Candidate>) returns (e: Candidate)
    requires Represented(c, r)
    ensures e in r && e.endpoint == c.endpoint && e.priority >= c.priority
  {
    e :| e in r && e.endpoint == c.endpoint && Le(e, c);
  }

  lemma IsRepresented(cs: seq<Candidate>, c: Candidate)
    requires c in cs && c.endpoint != ""
    ensures Represented(c, Ranked(cs))
  {
    RankedIsBest(cs);
  }

  /** The ranked entry with the endpoint of `c`. */
  lemma BestOf(cs: seq<Candidate>, c: Candidate) returns (e: Candidate)
    requires c in cs && c.endpoint != ""
    ensures e in Ranked(cs) && e in cs && e.endpoint == c.endpoint && e.priority >= c.priority
    ensures c in Ranked(cs) ==> e == c
  {
    IsRepresented(cs, c);
    e := Representative(c, Ranked(cs));
    RankedMember(cs, e);
    if c in Ranked(cs) { RankedOnce(cs, c, e); }
  }

  lemma OnePerEndpoint(r: seq<Candidate>, c: Candidate, e: Candidate)
    requires DistinctEndpoints(r) && c in r && e in r && c.endpoint == e.endpoint
    ensures c == e
  {
    var i := IndexOf(r, c);
    var j := IndexOf(r, e);
  }

  lemma RankedMember(cs: seq<Candidate>, c: Candidate)
    requires c in Ranked(cs)
    ensures c in cs && c.endpoint != ""
  {
    RankedIsBest(cs);
  }

  lemma RankedOnce(cs: seq<Candidate>, c: Candidate, e: Candidate)
    requires c in Ranked(cs) && e in Ranked(cs) && c.endpoint == e.endpoint
    ensures c == e
  {
    RankedIsBest(cs);
    OnePerEndpoint(Ranked(cs), c, e);
  }

  lemma BeforeIs(a: Candidate, b: Candidate)
    requires a.endpoint == b.endpoint
    ensures Before(a, b) <==> a.priority > b.priority
  {
    LeTotal(a, b);
    LeTotal(a, a);
  }

  lemma Shadow(cs: seq<Candidate>, c: Candidate) returns (a: Candidate)
    requires ShadowedBy(cs, c)
    ensures a in cs && a.kind == Lan4 && a.endpoint == c.endpoint && a.priority > c.priority
  {
    a :| a in cs && a.kind == Lan4 && a.endpoint == c.endpoint && Before(a, c);
    BeforeIs(a, c);
  }

  /** What is best with the permission and no LAN entry is best without. */
  lemma StaysBest(a: seq<Candidate>, b: seq<Candidate>, c: Candidate)
    requires Narrows(a, b) && OneOfTies(a) && c in Ranked(a) && c.kind != Lan4
    ensures c in Ranked(b)
  {
    RankedMember(a, c);
    var d := BestOf(b, c);
    var x := d;
    if d !in a { x := Shadow(a, d); }
    var e := BestOf(a, x);
    RankedOnce(a, c, e);
    assert Ties(c, d);
  }

  /** What is best without the permission stays so, unless a LAN entry shadows it. */
  lemma BestOrShadowed(a: seq<Candidate>, b: seq<Candidate>, c: Candidate)
    requires Narrows(a, b) && OneOfTies(a) && c in Ranked(b)
    ensures c in Ranked(a) || ShadowedBy(Ranked(a), c)
  {
    RankedMember(b, c);
    var x := c;
    if c !in a { x := Shadow(a, c); }
    var e := BestOf(a, x);
    BeforeIs(e, c);
    if e.kind != Lan4 {
      StaysBest(a, b, e);
      RankedOnce(b, c, e);
    }
  }

  lemma RankedWiden(a: seq<Candidate>, b: seq<Candidate>)
    requires Narrows(a, b) && OneOfTies(a)
    ensures Widens(Ranked(a), Ranked(b))
  {
    var r, q := Ranked(a), Ranked(b);
    RankedIsBest(a);
    RankedIsBest(b);
    forall c | c in r && c.kind != Lan4 ensures c in q {
      StaysBest(a, b, c);
    }
    forall c | c in q ensures c in r || ShadowedBy(r, c) {
      BestOrShadowed(a, b, c);
    }
  }

  lemma HiddenIsShadowed(a: seq<Candidate>, b: seq<Candidate>, o: Candidate)
    requires Narrows(a, b) && OneOfTies(a) && o in Ranked(b)
    ensures o !in Ranked(a) <==> ShadowedBy(a, o)
  {
    RankedMember(b, o);
    if ShadowedBy(a, o) {
      var x := Shadow(a, o);
      var e := BestOf(a, x);
      if o in Ranked(a) { RankedOnce(a, o, e); }
    } else if o !in Ranked(a) {
      BestOrShadowed(a, b, o);
      var x := Shadow(Ranked(a), o);
      RankedMember(a, x);
      BeforeIs(x, o);
      assert false;
    }
  }

  /** The choice shows the permission exactly if it picks a LAN entry or loses its best observed4 to one. */
  lemma ChoiceShows(a: seq<Candidate>, b: seq<Candidate>)
    requires Narrows(a, b) && OneOfTies(a)
    ensures SameChoice(Choose(a), Choose(b))
            <==> !HasLan(Choose(a))
                 && !(FirstObserved(Ranked(b)).Some? && ShadowedBy(a, FirstObserved(Ranked(b)).value))
  {
    RankedWiden(a, b);
    BestObservedIsFirst(Ranked(b));
    if FirstObserved(Ranked(b)).Some? { HiddenIsShadowed(a, b, FirstObserved(Ranked(b)).value); }
    SelectionIsExact(a);
    SelectionIsExact(b);
    if HasLan(Choose(a)) {
      var i :| 0 <= i < |Choose(a)| && Choose(a)[i].kind == Lan4;
      if i < |Choose(b)| { ChosenAreRanked(b, i); }
    } else {
      ChosenAlike(Ranked(a), Ranked(b));
    }
  }

  lemma ChosenAreRanked(b: seq<Candidate>, i: nat)
    requires i < |Choose(b)|
    ensures Choose(b)[i] in Ranked(b)
  {
    SelectionIsExact(b);
  }

  // ---------------------------------------------------------------- the entries of an offer

  /** The entries that the selection ranks. */
  function Entries(l: Locality, cs: seq<Candidate>, endpoint: string, allow: bool): seq<Candidate> {
    Gather(Advertise(l, cs), allow, true) + Legacy(LegacyOf(l, endpoint), allow, true)
  }

  lemma {:induction false} GatherNarrows(vs: seq<Advertised>, c: Candidate)
    ensures c in Gather(vs, false, true) <==> c in Gather(vs, true, true) && c.kind != Lan4
  {
    if vs != [] {
      GatherNarrows(vs[1..], c);
      var x, y := Admit(vs[0], true, true), Admit(vs[0], false, true);
      assert c in y <==> c in x && c.kind != Lan4;
    }
  }

  /** A private endpoint of the offer counts as LAN with the permission, as observed without. */
  lemma LegacyNarrows(a: Option<Address>, c: Candidate)
    ensures c in Legacy(a, false, true) ==>
              c.kind != Lan4 && (c in Legacy(a, true, true) || ShadowedBy(Legacy(a, true, true), c))
    ensures c in Legacy(a, true, true) && c.kind != Lan4 ==> c in Legacy(a, false, true)
  {
    if c in Legacy(a, false, true) && c !in Legacy(a, true, true) {
      var x := Legacy(a, true, true)[0];
      BeforeIs(x, c);
      assert x in Legacy(a, true, true);
    }
  }

  lemma EntriesNarrow(l: Locality, cs: seq<Candidate>, endpoint: string)
    ensures Narrows(Entries(l, cs, endpoint, true), Entries(l, cs, endpoint, false))
  {
    var a, b := Entries(l, cs, endpoint, true), Entries(l, cs, endpoint, false);
    var legacy := Legacy(LegacyOf(l, endpoint), true, true);
    forall c ensures c in a && c.kind != Lan4 ==> c in b ensures c in b ==> c.kind != Lan4 && (c in a || ShadowedBy(a, c)) {
      GatherNarrows(Advertise(l, cs), c);
      LegacyNarrows(LegacyOf(l, endpoint), c);
      if ShadowedBy(legacy, c) {
        var x :| x in legacy && x.kind == Lan4 && x.endpoint == c.endpoint && Before(x, c);
        assert x in a;
      }
    }
  }

  lemma CoresMember(cs: seq<Candidate>, c: Candidate)
    ensures c in Cores(cs) <==> exists x :: x in cs && Core(x) == c
  {
    if c in Cores(cs) {
      var i := IndexOf(Cores(cs), c);
      assert cs[i] in cs;
    }
    if x :| x in cs && Core(x) == c {
      var i := IndexOf(cs, x);
      assert Cores(cs)[i] == c;
    }
  }

  lemma CoreShadow(cs: seq<Candidate>, c: Candidate)
    ensures ShadowedBy(Cores(cs), Core(c)) <==> ShadowedBy(cs, c)
  {
    if ShadowedBy(Cores(cs), Core(c)) {
      var a :| a in Cores(cs) && a.kind == Lan4 && a.endpoint == c.endpoint && Before(a, Core(c));
      CoresMember(cs, a);
    }
    if ShadowedBy(cs, c) {
      var a :| a in cs && a.kind == Lan4 && a.endpoint == c.endpoint && Before(a, c);
      CoresMember(cs, Core(a));
      assert Before(Core(a), Core(c));
    }
  }

  lemma CoresNarrow(a: seq<Candidate>, b: seq<Candidate>)
    requires Narrows(a, b)
    ensures Narrows(Cores(a), Cores(b))
  {
    forall c ensures c in Cores(a) && c.kind != Lan4 ==> c in Cores(b)
             ensures c in Cores(b) ==> c.kind != Lan4 && (c in Cores(a) || ShadowedBy(Cores(a), c)) {
      CoresMember(a, c);
      CoresMember(b, c);
      if c in Cores(b) {
        var x :| x in b && Core(x) == c;
        CoreShadow(a, x);
      }
    }
  }

  lemma CoresOnce(cs: seq<Candidate>)
    requires TiesAgree(cs)
    ensures OneOfTies(Cores(cs))
  {
    forall c, d | c in Cores(cs) && d in Cores(cs) && Ties(c, d) ensures c == d {
      CoresMember(cs, c);
      CoresMember(cs, d);
      var x :| x in cs && Core(x) == c;
      var y :| y in cs && Core(y) == d;
      assert Ties(x, y);
    }
  }

  lemma {:induction false} FirstObservedCore(cs: seq<Candidate>)
    ensures FirstObserved(Cores(cs)) == match FirstObserved(cs) case None => None case Some(o) => Some(Core(o))
  {
    if cs != [] {
      CoresSplit(cs);
      FirstObservedCore(cs[1..]);
    }
  }

  lemma CoresChoice(x: seq<Candidate>, y: seq<Candidate>)
    ensures SameChoice(Cores(x), Cores(y)) <==> SameChoice(x, y)
    ensures HasLan(Cores(x)) <==> HasLan(x)
  {
    assert forall i :: 0 <= i < |x| ==> Cores(x)[i].kind == x[i].kind && Cores(x)[i].endpoint == x[i].endpoint;
    assert forall i :: 0 <= i < |y| ==> Cores(y)[i].kind == y[i].kind && Cores(y)[i].endpoint == y[i].endpoint;
  }

  /** The choice shows the permission, of entries that need not be equal when they tie. */
  lemma EntriesShow(a: seq<Candidate>, b: seq<Candidate>)
    requires Narrows(a, b) && TiesAgree(a)
    ensures SameChoice(Choose(a), Choose(b))
            <==> !HasLan(Choose(a))
                 && !(FirstObserved(Ranked(b)).Some? && ShadowedBy(a, FirstObserved(Ranked(b)).value))
  {
    CoresNarrow(a, b);
    CoresOnce(a);
    ChoiceShows(Cores(a), Cores(b));
    ChooseCores(a);
    ChooseCores(b);
    CoresChoice(Choose(a), Choose(b));
    SortCores(b);
    DedupeCores(Sort(b), {});
    FirstObservedCore(Ranked(b));
    if FirstObserved(Ranked(b)).Some? { CoreShadow(a, FirstObserved(Ranked(b)).value); }
  }

  /** The best observed4 of the offer without the permission has its endpoint in a better LAN entry. */
  predicate ObservedShadowed(l: Locality, cs: seq<Candidate>, endpoint: string) {
    var o := FirstObserved(Ranked(Entries(l, cs, endpoint, false)));
    o.Some? && ShadowedBy(Entries(l, cs, endpoint, true), o.value)
  }

  /**
   * The permission shows in the signature exactly if it lets a LAN address into the selection, or the best
   * observed4 has its endpoint in a better LAN entry, wherever that one ranks.
   */
  lemma LanShowsExactly(l: Locality, cs: seq<Candidate>, endpoint: string)
    requires NoTies(l, cs, endpoint)
    requires Clean(Selected(l, cs, endpoint, true)) && Clean(Selected(l, cs, endpoint, false))
    ensures LanShows(l, cs, endpoint)
            <==> HasLan(Selected(l, cs, endpoint, true)) || ObservedShadowed(l, cs, endpoint)
  {
    EntriesNarrow(l, cs, endpoint);
    EntriesShow(Entries(l, cs, endpoint, true), Entries(l, cs, endpoint, false));
    SignatureTells(Selected(l, cs, endpoint, true), Selected(l, cs, endpoint, false));
  }
}
