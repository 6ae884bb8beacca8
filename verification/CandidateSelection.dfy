/** What the selection returns, and on what it depends. */
module CandidateSelection {
  import opened Basics
  import opened Candidates
  import opened CandidateOrder

  // ---------------------------------------------------------------- one entry

  /** The priority of an entry that names none. */
  function StandardPriority(k: Kind): int {
    match k
    case Lan4 => 1000
    case Host6 => 900
    case Observed6 => 850
    case Reflexive6 => 825
    case Mapped4 => 800
    case Observed4 => 700
    case Predicted4 => 500
  }

  /** The address is of the sort that the type is about. */
  predicate Suits(k: Kind, a: Address) {
    match k
    case Lan4 => !a.v6 && a.isPrivate
    case Host6 => a.usableGlobal6
    case Observed6 => a.usableGlobal6
    case Reflexive6 => a.usableGlobal6
    case Mapped4 => !a.v6
    case Observed4 => !a.v6
    case Predicted4 => !a.v6
  }

  /** What an advertised entry is read as. */
  lemma NormalizesExactly(v: Advertised, c: Candidate)
    ensures Normalize(v) == Some(c)
            <==> && v.kind == Some(c.kind) && v.address.Some? && Suits(c.kind, v.address.value)
                 && c.endpoint == v.address.value.text && c.family == (if v.address.value.v6 then Udp6 else Udp4)
                 && c.priority == (if v.priority == 0 then StandardPriority(c.kind) else v.priority)
                 && c.verified == v.verified
  {
  }

  /** LAN and IPv6 types need their permission. */
  predicate Permitted(k: Kind, allowLan: bool, allowIpv6: bool) {
    match k
    case Lan4 => allowLan
    case Host6 => allowIpv6
    case Observed6 => allowIpv6
    case Reflexive6 => allowIpv6
    case _ => true
  }

  /** What is gathered are the entries that can be read and are permitted. */
  lemma {:induction false} GathersExactly(vs: seq<Advertised>, allowLan: bool, allowIpv6: bool, c: Candidate)
    ensures c in Gather(vs, allowLan, allowIpv6)
            <==> Permitted(c.kind, allowLan, allowIpv6) && exists i :: 0 <= i < |vs| && Normalize(vs[i]) == Some(c)
  {
    if vs != [] {
      GathersExactly(vs[1..], allowLan, allowIpv6, c);
      assert c in Admit(vs[0], allowLan, allowIpv6)
             <==> Normalize(vs[0]) == Some(c) && Permitted(c.kind, allowLan, allowIpv6);
      if i :| 0 <= i < |vs[1..]| && Normalize(vs[1..][i]) == Some(c) { assert vs[i + 1] == vs[1..][i]; }
      if i :| 0 <= i < |vs| && Normalize(vs[i]) == Some(c) { assert i > 0 ==> vs[1..][i - 1] == vs[i]; }
    }
  }

  /** The endpoint of the offer itself: LAN if it may be, host6 if it can be, otherwise observed. */
  lemma LegacyExactly(a: Option<Address>, allowLan: bool, allowIpv6: bool)
    ensures Legacy(a, allowLan, allowIpv6)
            == if a.None? then []
               else if a.value.v6 then
                 if a.value.usableGlobal6 && allowIpv6 then [Candidate(Host6, Udp6, a.value.text, 900, false)] else []
               else if a.value.isPrivate && allowLan then [Candidate(Lan4, Udp4, a.value.text, 1000, false)]
               else [Candidate(Observed4, Udp4, a.value.text, 700, true)]
  {
  }

  /** The texts differ first at `i`, and `a` has the smaller character there. */
  predicate SmallerAt(a: string, b: string, i: nat) {
    i < |a| && i < |b| && a[i] < b[i] && forall j :: 0 <= j < i ==> a[j] == b[j]
  }

  /** `a` is a prefix of `b`, or has the smaller character at the first difference. */
  predicate Precedes(a: string, b: string) {
    a <= b || exists i :: 0 <= i < |a| && SmallerAt(a, b, i)
  }

  lemma TailsPrecede(a: string, b: string)
    requires a != [] && b != [] && a[0] == b[0]
    ensures Precedes(a, b) <==> Precedes(a[1..], b[1..])
  {
    if i: nat :| SmallerAt(a, b, i) { assert SmallerAt(a[1..], b[1..], i - 1); }
    if i: nat :| SmallerAt(a[1..], b[1..], i) {
      assert forall j :: 0 < j <= i ==> a[j] == a[1..][j - 1] && b[j] == b[1..][j - 1];
      assert SmallerAt(a, b, i + 1);
    }
    if a[1..] <= b[1..] { assert a == [a[0]] + a[1..] && b == [b[0]] + b[1..]; }
  }

  lemma {:induction false} TextsAreLexicographic(a: string, b: string)
    ensures TextLe(a, b) <==> Precedes(a, b)
  {
    if a != [] && b != [] {
      if a[0] == b[0] {
        TextsAreLexicographic(a[1..], b[1..]);
        TailsPrecede(a, b);
      } else if a[0] < b[0] {
        assert SmallerAt(a, b, 0);
      }
    }
  }

  /** Candidates are ordered by falling priority, and by the text of their endpoints among equals. */
  lemma OrderIs(a: Candidate, b: Candidate)
    ensures Le(a, b) <==> a.priority > b.priority || (a.priority == b.priority && Precedes(a.endpoint, b.endpoint))
  {
    TextsAreLexicographic(a.endpoint, b.endpoint);
  }

  // ---------------------------------------------------------------- the ranked list

  predicate DistinctEndpoints(cs: seq<Candidate>) {
    forall i, j :: 0 <= i < j < |cs| ==> cs[i].endpoint != cs[j].endpoint
  }

  lemma {:induction false} DedupeSelects(cs: seq<Candidate>, seen: set<string>)
    requires Sorted(cs)
    ensures var r := Dedupe(cs, seen);
            && Sorted(r) && DistinctEndpoints(r)
            && (forall c :: c in r ==> c in cs && c.endpoint != "" && c.endpoint !in seen)
  {
    if cs != [] {
      var isNew := cs[0].endpoint != "" && cs[0].endpoint !in seen;
      DedupeSelects(cs[1..], if isNew then seen + {cs[0].endpoint} else seen);
    }
  }

  /** Deduplication of a sorted list keeps, for every new endpoint, its best candidate. */
  lemma {:induction false} DedupeKeepsTheBest(cs: seq<Candidate>, seen: set<string>, c: Candidate)
    requires Sorted(cs) && c in cs && c.endpoint != "" && c.endpoint !in seen
    ensures Represented(c, Dedupe(cs, seen))
  {
    var isNew := cs[0].endpoint != "" && cs[0].endpoint !in seen;
    var seen' := if isNew then seen + {cs[0].endpoint} else seen;
    LeTotal(cs[0], cs[0]);
    if isNew && c.endpoint == cs[0].endpoint {
      assert Dedupe(cs, seen)[0] == cs[0] && Le(cs[0], c);
    } else {
      DedupeKeepsTheBest(cs[1..], seen', c);
      var l :| l in Dedupe(cs[1..], seen') && l.endpoint == c.endpoint && Le(l, c);
      assert l in Dedupe(cs, seen);
    }
  }

  /** The list has a candidate with the endpoint of `c` that is not after `c`. */
  predicate Represented(c: Candidate, r: seq<Candidate>) {
    exists l :: l in r && l.endpoint == c.endpoint && Le(l, c)
  }

  lemma SortMembers(cs: seq<Candidate>, c: Candidate)
    ensures c in Sort(cs) <==> c in cs
  {
    SortSorts(cs);
    assert c in multiset(cs) <==> c in multiset(Sort(cs));
  }

  /** The ranked list has every advertised endpoint once, with its best candidate, best first. */
  lemma RankedIsBest(cs: seq<Candidate>)
    ensures StrictlySorted(Ranked(cs)) && DistinctEndpoints(Ranked(cs))
    ensures forall c :: c in Ranked(cs) ==> c in cs && c.endpoint != ""
    ensures forall c :: c in cs && c.endpoint != "" ==> Represented(c, Ranked(cs))
  {
    var r := Ranked(cs);
    SortSorts(cs);
    DedupeSelects(Sort(cs), {});
    forall i, j | 0 <= i < j < |r| ensures Le(r[i], r[j]) && !Le(r[j], r[i]) {
      LeTotal(r[i], r[j]);
    }
    forall c | c in r ensures c in cs {
      SortMembers(cs, c);
    }
    forall c | c in cs && c.endpoint != "" ensures Represented(c, r) {
      SortMembers(cs, c);
      DedupeKeepsTheBest(Sort(cs), {}, c);
    }
  }

  // ---------------------------------------------------------------- the exact result

  /** The index of the best observed4 candidate, or the length. */
  function BestObserved(cs: seq<Candidate>): nat {
    if cs == [] then 0 else if cs[0].kind == Observed4 then 0 else 1 + BestObserved(cs[1..])
  }

  lemma {:induction false} BestObservedIsFirst(cs: seq<Candidate>)
    ensures var n := BestObserved(cs);
            && n <= |cs| && (forall i :: 0 <= i < n ==> cs[i].kind != Observed4)
            && FirstObserved(cs) == (if n < |cs| then Some(cs[n]) else None)
            && (n < |cs| ==> cs[n].kind == Observed4)
  {
    if cs != [] { BestObservedIsFirst(cs[1..]); }
  }

  /**
   * The selection is the ranked list when it is short; otherwise its top five, or its top four and
   * the best observed4 when that ranks below fifth.
   */
  function ExactSelection(ranked: seq<Candidate>): seq<Candidate> {
    var n := BestObserved(ranked);
    if |ranked| <= 5 then ranked
    else if 5 <= n < |ranked| then ranked[..4] + [ranked[n]]
    else ranked[..5]
  }

  /** The observed4 fallback is missing from the top five exactly when it ranks below. */
  lemma FallbackListed(r: seq<Candidate>)
    requires |r| > 5 && DistinctEndpoints(r) && BestObserved(r) < |r|
    ensures EndpointListed(r[..5], r[BestObserved(r)].endpoint) <==> BestObserved(r) < 5
  {
    var n := BestObserved(r);
    if n < 5 { assert r[..5][n] == r[n]; }
  }

  /** Replacing the fifth by a later one keeps the order: the final sort does nothing. */
  lemma FallbackInOrder(r: seq<Candidate>, n: nat)
    requires 5 <= n < |r| && StrictlySorted(r)
    ensures Sort(r[..5][4 := r[n]]) == r[..4] + [r[n]]
  {
    assert r[..5][4 := r[n]] == r[..4] + [r[n]];
    SortOfSorted(r[..4] + [r[n]]);
  }

  lemma CutIsExact(r: seq<Candidate>)
    requires StrictlySorted(r) && DistinctEndpoints(r)
    ensures Cut(r) == ExactSelection(r)
  {
    BestObservedIsFirst(r);
    if |r| > 5 && BestObserved(r) < |r| {
      FallbackListed(r);
      if 5 <= BestObserved(r) { FallbackInOrder(r, BestObserved(r)); }
    }
  }

  lemma ExactIsOrdered(r: seq<Candidate>)
    requires StrictlySorted(r) && DistinctEndpoints(r)
    ensures var e := ExactSelection(r); |e| <= 5 && DistinctEndpoints(e) && StrictlySorted(e)
  {
  }

  /** At most five endpoints, all different, best first, chosen as ExactSelection says. */
  lemma SelectionIsExact(cs: seq<Candidate>)
    ensures Choose(cs) == ExactSelection(Ranked(cs))
    ensures |Choose(cs)| <= 5 && DistinctEndpoints(Choose(cs)) && StrictlySorted(Choose(cs))
  {
    RankedIsBest(cs);
    CutIsExact(Ranked(cs));
    ExactIsOrdered(Ranked(cs));
  }

  // ---------------------------------------------------------------- order of advertisement

  /** What a signature and the order can see of a candidate. */
  function Core(c: Candidate): Candidate {
    c.(family := Udp4, verified := false)
  }

  function Cores(cs: seq<Candidate>): seq<Candidate> {
    seq(|cs|, i requires 0 <= i < |cs| => Core(cs[i]))
  }

  lemma CoresCons(c: Candidate, cs: seq<Candidate>)
    ensures Cores([c] + cs) == [Core(c)] + Cores(cs)
  {
  }

  lemma CoresSplit(cs: seq<Candidate>)
    requires cs != []
    ensures Cores(cs) == [Core(cs[0])] + Cores(cs[1..]) && Cores(cs)[1..] == Cores(cs[1..])
  {
  }

  lemma {:induction false} InsertCores(c: Candidate, cs: seq<Candidate>)
    ensures Cores(Insert(c, cs)) == Insert(Core(c), Cores(cs))
  {
    CoresCons(c, cs);
    if cs != [] && !Le(c, cs[0]) {
      InsertCores(c, cs[1..]);
      CoresSplit(cs);
      CoresCons(cs[0], Insert(c, cs[1..]));
    }
  }

  lemma {:induction false} SortCores(cs: seq<Candidate>)
    ensures Cores(Sort(cs)) == Sort(Cores(cs))
  {
    if cs != [] {
      SortCores(cs[1..]);
      CoresSplit(cs);
      InsertCores(cs[0], Sort(cs[1..]));
    }
  }

  lemma {:induction false} DedupeCores(cs: seq<Candidate>, seen: set<string>)
    ensures Cores(Dedupe(cs, seen)) == Dedupe(Cores(cs), seen)
  {
    if cs != [] {
      CoresSplit(cs);
      var isNew := cs[0].endpoint != "" && cs[0].endpoint !in seen;
      DedupeCores(cs[1..], if isNew then seen + {cs[0].endpoint} else seen);
      if isNew { CoresCons(cs[0], Dedupe(cs[1..], seen + {cs[0].endpoint})); }
    }
  }

  lemma {:induction false} BestObservedCores(cs: seq<Candidate>)
    ensures BestObserved(Cores(cs)) == BestObserved(cs)
  {
    if cs != [] {
      CoresSplit(cs);
      BestObservedCores(cs[1..]);
    }
  }

  lemma ChooseCores(cs: seq<Candidate>)
    ensures Cores(Choose(cs)) == Choose(Cores(cs))
  {
    SelectionIsExact(cs);
    SelectionIsExact(Cores(cs));
    SortCores(cs);
    DedupeCores(Sort(cs), {});
    BestObservedCores(Ranked(cs));
    BestObservedIsFirst(Ranked(cs));
  }

  lemma {:induction false} SignatureOfCores(cs: seq<Candidate>)
    ensures Signature(Cores(cs)) == Signature(cs)
  {
    if cs != [] {
      CoresSplit(cs);
      SignatureOfCores(cs[1..]);
    }
  }

  /** Entries that tie in priority and endpoint have the same type. */
  predicate TiesAgree(cs: seq<Candidate>) {
    forall a, b :: a in cs && b in cs && Ties(a, b) ==> a.kind == b.kind
  }

  lemma TakeOut<T>(b: seq<T>, j: nat)
    requires j < |b|
    ensures b == b[..j] + ([b[j]] + b[j + 1..])
    ensures multiset(b) == multiset{b[j]} + multiset(b[..j] + b[j + 1..])
  {
  }

  /** Where the head of one arrangement stands in another, and what is left of both. */
  lemma HeadIn<T>(a: seq<T>, b: seq<T>) returns (j: nat)
    requires a != [] && multiset(a) == multiset(b)
    ensures j < |b| && b[j] == a[0] && b == b[..j] + ([b[j]] + b[j + 1..])
    ensures multiset(a[1..]) == multiset(b[..j] + b[j + 1..])
  {
    assert a[0] in multiset(b);
    j :| 0 <= j < |b| && b[j] == a[0];
    TakeOut(b, j);
    HeadAndTail(a);
    SameRest(a[0], multiset(a[1..]), multiset(b[..j] + b[j + 1..]));
  }

  lemma HeadAndTail<T>(a: seq<T>)
    requires a != []
    ensures multiset(a) == multiset{a[0]} + multiset(a[1..])
  {
    assert a == [a[0]] + a[1..];
  }

  lemma SameRest<T>(x: T, a: multiset<T>, b: multiset<T>)
    requires multiset{x} + a == multiset{x} + b
    ensures a == b
  {
    assert a == (multiset{x} + a) - multiset{x} && b == (multiset{x} + b) - multiset{x};
  }

  lemma NoneLeft<T>(b: seq<T>)
    requires multiset(b) == multiset([])
    ensures b == []
  {
    assert |multiset(b)| == |b|;
  }

  lemma SortedHeads(a: seq<Candidate>, b: seq<Candidate>)
    requires a != [] && Sorted(a) && Sorted(b) && multiset(a) == multiset(b)
    ensures b != [] && Ties(a[0], b[0]) && b[0] in a
  {
    var j := HeadIn(a, b);
    var i := HeadIn(b, a);
    LeTotal(a[0], b[0]);
    LeTotal(a[0], a[0]);
    LeTotal(b[0], b[0]);
  }

  lemma SameTails<T>(a: seq<T>, b: seq<T>)
    requires a != [] && b != [] && a[0] == b[0] && multiset(a) == multiset(b)
    ensures multiset(a[1..]) == multiset(b[1..]) && b == [a[0]] + b[1..]
  {
    TakeOut(a, 0);
    TakeOut(b, 0);
    assert a[..0] + a[1..] == a[1..] && b[..0] + b[1..] == b[1..];
    assert multiset(a[1..]) == multiset(a) - multiset{a[0]};
    assert multiset(b[1..]) == multiset(b) - multiset{a[0]};
  }

  predicate TiesEqual(cs: seq<Candidate>) {
    forall i, j :: 0 <= i < |cs| && 0 <= j < |cs| && Ties(cs[i], cs[j]) ==> cs[i] == cs[j]
  }

  lemma {:induction false} SortedOnce(a: seq<Candidate>, b: seq<Candidate>)
    requires Sorted(a) && Sorted(b) && multiset(a) == multiset(b) && TiesEqual(a)
    ensures a == b
  {
    if a == [] {
      NoneLeft(b);
    } else {
      SortedHeads(a, b);
      SameTails(a, b);
      SortedOnce(a[1..], b[1..]);
      assert a == [a[0]] + a[1..];
    }
  }

  lemma CoresConcat(a: seq<Candidate>, b: seq<Candidate>)
    ensures Cores(a + b) == Cores(a) + Cores(b)
  {
  }

  lemma {:induction false} CoresOfPermutation(a: seq<Candidate>, b: seq<Candidate>)
    requires multiset(a) == multiset(b)
    ensures multiset(Cores(a)) == multiset(Cores(b))
  {
    if a == [] {
      NoneLeft(b);
    } else {
      var j := HeadIn(a, b);
      var pre, post := b[..j], b[j + 1..];
      CoresOfPermutation(a[1..], pre + post);
      CoresSplit(a);
      CoresConcat(pre, post);
      CoresConcat(pre, [b[j]] + post);
      CoresCons(b[j], post);
    }
  }

  lemma SortedCoresAgree(a: seq<Candidate>)
    requires TiesAgree(a)
    ensures TiesEqual(Sort(Cores(a)))
  {
    var ca, sorted := Cores(a), Sort(Cores(a));
    forall i, j | 0 <= i < |sorted| && 0 <= j < |sorted| && Ties(sorted[i], sorted[j]) ensures sorted[i] == sorted[j] {
      SortMembers(ca, sorted[i]);
      SortMembers(ca, sorted[j]);
      var x :| 0 <= x < |ca| && ca[x] == sorted[i];
      var y :| 0 <= y < |ca| && ca[y] == sorted[j];
      assert Ties(a[x], a[y]);
    }
  }

  /** The order of the candidates does not show in the selected types and endpoints. */
  lemma SelectionIgnoresOrder(a: seq<Candidate>, b: seq<Candidate>)
    requires multiset(a) == multiset(b) && TiesAgree(a)
    ensures Cores(Choose(a)) == Cores(Choose(b)) && Signature(Choose(a)) == Signature(Choose(b))
  {
    var ca, cb := Cores(a), Cores(b);
    CoresOfPermutation(a, b);
    SortSorts(ca);
    SortSorts(cb);
    SortedCoresAgree(a);
    SortedOnce(Sort(ca), Sort(cb));
    ChooseCores(a);
    ChooseCores(b);
    SignatureOfCores(Choose(a));
    SignatureOfCores(Choose(b));
  }

  lemma {:induction false} GatherConcat(a: seq<Advertised>, b: seq<Advertised>, allowLan: bool, allowIpv6: bool)
    ensures Gather(a + b, allowLan, allowIpv6) == Gather(a, allowLan, allowIpv6) + Gather(b, allowLan, allowIpv6)
  {
    if a == [] {
      assert a + b == b;
    } else {
      assert (a + b)[1..] == a[1..] + b;
      GatherConcat(a[1..], b, allowLan, allowIpv6);
    }
  }

  lemma {:induction false} GatherOfPermutation(a: seq<Advertised>, b: seq<Advertised>, allowLan: bool, allowIpv6: bool)
    requires multiset(a) == multiset(b)
    ensures multiset(Gather(a, allowLan, allowIpv6)) == multiset(Gather(b, allowLan, allowIpv6))
  {
    if a == [] {
      NoneLeft(b);
    } else {
      var j := HeadIn(a, b);
      var pre, post := b[..j], b[j + 1..];
      GatherOfPermutation(a[1..], pre + post, allowLan, allowIpv6);
      GatherConcat(pre, post, allowLan, allowIpv6);
      GatherConcat(pre, [b[j]] + post, allowLan, allowIpv6);
      assert ([b[j]] + post)[1..] == post;
    }
  }

  /** Permuting the advertised list leaves the signature of the selection as it was. */
  lemma SignatureIgnoresOrder(a: seq<Advertised>, b: seq<Advertised>, legacy: Option<Address>,
                                                 allowLan: bool, allowIpv6: bool)
    requires multiset(a) == multiset(b)
    requires TiesAgree(Gather(a, allowLan, allowIpv6) + Legacy(legacy, allowLan, allowIpv6))
    ensures Signature(SelectFrom(a, legacy, allowLan, allowIpv6)) == Signature(SelectFrom(b, legacy, allowLan, allowIpv6))
    ensures SelectFrom(a, legacy, allowLan, allowIpv6) == [] <==> SelectFrom(b, legacy, allowLan, allowIpv6) == []
  {
    GatherOfPermutation(a, b, allowLan, allowIpv6);
    var tail := Legacy(legacy, allowLan, allowIpv6);
    var ga, gb := Gather(a, allowLan, allowIpv6) + tail, Gather(b, allowLan, allowIpv6) + tail;
    assert multiset(ga) == multiset(gb);
    SelectionIgnoresOrder(ga, gb);
    assert |Cores(Choose(ga))| == |Cores(Choose(gb))|;
  }

  lemma ChooseFirstOfTwo(x: Candidate, y: Candidate)
    requires Ties(x, y) && x.endpoint != ""
    ensures Choose([x, y]) == [x]
  {
    LeTotal(x, y);
    assert [x, y][1..] == [y] && [y][1..] == [];
    assert Sort([y]) == [y];
    assert Sort([x, y]) == [x, y];
    var seen: set<string> := {};
    assert Dedupe([], seen + {x.endpoint}) == [];
    assert Dedupe([y], seen + {x.endpoint}) == [];
    assert Dedupe([x, y], seen) == [x];
  }

  /** Two types that tie show the order of the list: the hypothesis is needed. */
  lemma TiesShowTheOrder(e: string)
    requires e != ""
    ensures var x := Candidate(Mapped4, Udp4, e, 700, false);
            var y := Candidate(Observed4, Udp4, e, 700, false);
            multiset([x, y]) == multiset([y, x]) && Signature(Choose([x, y])) != Signature(Choose([y, x]))
  {
    var x := Candidate(Mapped4, Udp4, e, 700, false);
    var y := Candidate(Observed4, Udp4, e, 700, false);
    ChooseFirstOfTwo(x, y);
    ChooseFirstOfTwo(y, x);
    assert Signature([x])[0] == 'm' && Signature([y])[0] == 'o';
  }
}
