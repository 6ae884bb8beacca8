/** The order of candidates is total, and the stable sort by it is unique. */
module CandidateOrder {
  import opened Basics
  import opened Candidates

  lemma {:induction false} TextTotal(a: string, b: string)
    ensures TextLe(a, b) || TextLe(b, a)
    ensures TextLe(a, b) && TextLe(b, a) ==> a == b
  {
    if a != [] && b != [] && a[0] == b[0] {
      TextTotal(a[1..], b[1..]);
      assert a == [a[0]] + a[1..] && b == [b[0]] + b[1..];
    }
  }

  lemma {:induction false} TextTransitive(a: string, b: string, c: string)
    requires TextLe(a, b) && TextLe(b, c)
    ensures TextLe(a, c)
  {
    if a != [] && a[0] == b[0] == c[0] { TextTransitive(a[1..], b[1..], c[1..]); }
  }

  lemma LeTotal(a: Candidate, b: Candidate)
    ensures Le(a, b) || Le(b, a)
    ensures Le(a, b) && Le(b, a) <==> Ties(a, b)
  {
    TextTotal(a.endpoint, b.endpoint);
  }

  lemma LeTransitive(a: Candidate, b: Candidate, c: Candidate)
    requires Le(a, b) && Le(b, c)
    ensures Le(a, c)
  {
    if a.priority == b.priority == c.priority { TextTransitive(a.endpoint, b.endpoint, c.endpoint); }
  }

  // ---------------------------------------------------------------- the sort

  lemma {:induction false} InsertSorted(c: Candidate, cs: seq<Candidate>)
    requires Sorted(cs)
    ensures Sorted(Insert(c, cs)) && multiset(Insert(c, cs)) == multiset{c} + multiset(cs)
  {
    if cs == [] {
    } else if Le(c, cs[0]) {
      forall j | 0 <= j < |cs| ensures Le(c, cs[j]) {
        if j > 0 { LeTransitive(c, cs[0], cs[j]); }
      }
    } else {
      InsertSorted(c, cs[1..]);
      LeTotal(c, cs[0]);
      var rest := Insert(c, cs[1..]);
      assert cs == [cs[0]] + cs[1..];
      forall j | 0 <= j < |rest| ensures Le(cs[0], rest[j]) {
        assert rest[j] in multiset(rest);
        assert rest[j] == c || rest[j] in cs[1..];
      }
    }
  }

  lemma {:induction false} SortSorts(cs: seq<Candidate>)
    ensures Sorted(Sort(cs)) && multiset(Sort(cs)) == multiset(cs) && |Sort(cs)| == |cs|
  {
    if cs != [] {
      SortSorts(cs[1..]);
      InsertSorted(cs[0], Sort(cs[1..]));
      assert cs == [cs[0]] + cs[1..];
      assert |multiset(Sort(cs))| == |multiset(cs)|;
    }
  }

  lemma {:induction false} SortOfSorted(cs: seq<Candidate>)
    requires Sorted(cs)
    ensures Sort(cs) == cs
  {
    if cs != [] { SortOfSorted(cs[1..]); }
  }

  /** The entries that tie with `k`, in their order. */
  function Tied(cs: seq<Candidate>, k: Candidate): seq<Candidate> {
    if cs == [] then [] else (if Ties(cs[0], k) then [cs[0]] else []) + Tied(cs[1..], k)
  }

  lemma {:induction false} InsertTied(c: Candidate, cs: seq<Candidate>, k: Candidate)
    ensures Tied(Insert(c, cs), k) == (if Ties(c, k) then [c] else []) + Tied(cs, k)
  {
    if cs == [] || Le(c, cs[0]) {
      assert ([c] + cs)[1..] == cs;
    } else {
      InsertTied(c, cs[1..], k);
      LeTotal(c, cs[0]);
      assert ([cs[0]] + Insert(c, cs[1..]))[1..] == Insert(c, cs[1..]);
    }
  }

  /** Entries that tie keep their order. */
  lemma {:induction false} SortIsStable(cs: seq<Candidate>, k: Candidate)
    ensures Tied(Sort(cs), k) == Tied(cs, k)
  {
    if cs != [] {
      SortIsStable(cs[1..], k);
      InsertTied(cs[0], Sort(cs[1..]), k);
    }
  }

  lemma {:induction false} TiedMembers(cs: seq<Candidate>, k: Candidate)
    ensures forall i :: 0 <= i < |Tied(cs, k)| ==> Ties(Tied(cs, k)[i], k) && Tied(cs, k)[i] in cs
    ensures k in cs ==> Tied(cs, k) != []
  {
    if cs != [] { TiedMembers(cs[1..], k); }
  }

  /**
   * Sorted and stable leaves no choice: any library sort with these two properties computes Sort, so
   * the Python and the Go implementation sort alike.
   */
  lemma {:induction false} StableSortIsUnique(a: seq<Candidate>, b: seq<Candidate>)
    requires Sorted(a) && Sorted(b) && forall k :: Tied(a, k) == Tied(b, k)
    ensures a == b
    decreases |a|
  {
    if a != [] {
      TiedMembers(a, a[0]);
      assert Tied(a, a[0]) == Tied(b, a[0]);
      TiedMembers(b, a[0]);
      assert b != [];
      TiedMembers(b, b[0]);
      assert Tied(a, b[0]) == Tied(b, b[0]);
      TiedMembers(a, b[0]);
      HeadsTie(a, b);
      assert Tied(a, a[0])[0] == a[0] && Tied(b, a[0])[0] == b[0];
      forall k ensures Tied(a[1..], k) == Tied(b[1..], k) {
        assert Tied(a, k) == Tied(b, k);
        var h := if Ties(a[0], k) then [a[0]] else [];
        assert (h + Tied(a[1..], k))[|h|..] == Tied(a[1..], k);
        assert (h + Tied(b[1..], k))[|h|..] == Tied(b[1..], k);
      }
      StableSortIsUnique(a[1..], b[1..]);
      assert a == [a[0]] + a[1..] && b == [b[0]] + b[1..];
    }
  }

  lemma HeadsTie(a: seq<Candidate>, b: seq<Candidate>)
    requires a != [] && b != [] && Sorted(a) && Sorted(b)
    requires Tied(b, a[0]) != [] && Tied(a, b[0]) != []
    ensures Ties(a[0], b[0])
  {
    TiedMembers(b, a[0]);
    TiedMembers(a, b[0]);
    var x, y := Tied(b, a[0])[0], Tied(a, b[0])[0];
    LeTotal(x, a[0]);
    LeTotal(y, b[0]);
    LeTotal(a[0], b[0]);
    LeTotal(x, b[0]);
    LeTotal(y, a[0]);
    var i :| 0 <= i < |b| && b[i] == x;
    var j :| 0 <= j < |a| && a[j] == y;
    assert Le(b[0], x) && Le(a[0], y);
    LeTransitive(b[0], x, a[0]);
    LeTransitive(a[0], y, b[0]);
  }
}
