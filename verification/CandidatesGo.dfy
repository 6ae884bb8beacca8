/** The Go client's selection: the same choice, made by sorting slices in place. */
module CandidatesGo {
  import opened Basics
  import opened Candidates
  import opened CandidateOrder
  import opened CandidateSelection

  // ---------------------------------------------------------------- inserting from the right

  /** `c` behind everything in `cs` that is not after it. */
  function InsertLast(cs: seq<Candidate>, c: Candidate): seq<Candidate> {
    if cs == [] || Le(cs[|cs| - 1], c) then cs + [c]
    else InsertLast(cs[..|cs| - 1], c) + [cs[|cs| - 1]]
  }

  lemma {:induction false} InsertLastSorted(cs: seq<Candidate>, c: Candidate)
    requires Sorted(cs)
    ensures Sorted(InsertLast(cs, c)) && multiset(InsertLast(cs, c)) == multiset(cs) + multiset{c}
    decreases |cs|
  {
    if cs == [] {
    } else {
      var last, front := cs[|cs| - 1], cs[..|cs| - 1];
      assert cs == front + [last];
      LeTotal(last, c);
      if Le(last, c) {
        forall j | 0 <= j < |cs| ensures Le(cs[j], c) {
          if j < |cs| - 1 { LeTransitive(cs[j], last, c); }
        }
      } else {
        InsertLastSorted(front, c);
        forall x | x in InsertLast(front, c) ensures Le(x, last) {
          assert x in multiset(InsertLast(front, c));
          assert x == c || x in front;
        }
      }
    }
  }

  lemma {:induction false} TiedAppend(cs: seq<Candidate>, c: Candidate, k: Candidate)
    ensures Tied(cs + [c], k) == Tied(cs, k) + if Ties(c, k) then [c] else []
  {
    if cs == [] {
      assert cs + [c] == [c] && [c][1..] == [];
    } else {
      assert (cs + [c])[1..] == cs[1..] + [c];
      TiedAppend(cs[1..], c, k);
    }
  }

  lemma {:induction false} InsertLastTied(cs: seq<Candidate>, c: Candidate, k: Candidate)
    ensures Tied(InsertLast(cs, c), k) == Tied(cs, k) + if Ties(c, k) then [c] else []
    decreases |cs|
  {
    TiedAppend(cs, c, k);
    if cs != [] && !Le(cs[|cs| - 1], c) {
      var last, front := cs[|cs| - 1], cs[..|cs| - 1];
      assert cs == front + [last];
      LeTotal(last, c);
      InsertLastTied(front, c, k);
      TiedAppend(InsertLast(front, c), last, k);
      TiedAppend(front, last, k);
    }
  }

  /** Sorting one more entry is inserting it from the right: both are the stable sort. */
  lemma SortAppend(cs: seq<Candidate>, c: Candidate)
    ensures Sort(cs + [c]) == InsertLast(Sort(cs), c)
  {
    SortSorts(cs);
    SortSorts(cs + [c]);
    InsertLastSorted(Sort(cs), c);
    forall k ensures Tied(Sort(cs + [c]), k) == Tied(InsertLast(Sort(cs), c), k) {
      SortIsStable(cs + [c], k);
      SortIsStable(cs, k);
      TiedAppend(cs, c, k);
      InsertLastTied(Sort(cs), c, k);
    }
    StableSortIsUnique(Sort(cs + [c]), InsertLast(Sort(cs), c));
  }

  /** The prefix `p` with `c` at position `j`. */
  function Placed(p: seq<Candidate>, c: Candidate, j: nat): seq<Candidate>
    requires j <= |p|
  {
    p[..j] + [c] + p[j..]
  }

  lemma PlacedSwap(p: seq<Candidate>, c: Candidate, j: nat)
    requires 0 < j <= |p|
    ensures Placed(p, c, j)[j - 1 := c][j := p[j - 1]] == Placed(p, c, j - 1)
    ensures Placed(p, c, j)[j - 1] == p[j - 1] && Placed(p, c, j)[j] == c
  {
  }

  /** Where the in-place insertion stops. */
  lemma {:induction false} InsertLastAt(cs: seq<Candidate>, c: Candidate, j: nat)
    requires j <= |cs| && (j == 0 || Le(cs[j - 1], c))
    requires forall k :: j <= k < |cs| ==> !Le(cs[k], c)
    ensures InsertLast(cs, c) == Placed(cs, c, j)
    decreases |cs|
  {
    if j < |cs| {
      InsertLastAt(cs[..|cs| - 1], c, j);
      assert cs[..|cs| - 1][..j] == cs[..j];
      assert cs[..|cs| - 1][j..] + [cs[|cs| - 1]] == cs[j..];
    } else {
      assert cs[..j] == cs && cs[j..] == [];
    }
  }

  // ---------------------------------------------------------------- the methods

  /** Move the entry at `i` to the left until it is in place. */
  method SiftLeft(a: array<Candidate>, i: nat)
    requires i < a.Length
    modifies a
    ensures a[..i + 1] == InsertLast(old(a[..i]), old(a[i]))
    ensures a[i + 1..] == old(a[i + 1..])
  {
    ghost var p, c, rest := a[..i], a[i], a[i + 1..];
    var j := i;
    assert a[..i + 1] == Placed(p, c, j);
    while j > 0 && !Le(a[j - 1], a[j])
      invariant j <= i
      invariant a[..i + 1] == Placed(p, c, j) && a[i + 1..] == rest
      invariant forall k :: j <= k < i ==> !Le(p[k], c)
    {
      PlacedSwap(p, c, j);
      assert a[j - 1] == a[..i + 1][j - 1] && a[j] == a[..i + 1][j];
      a[j - 1], a[j] := a[j], a[j - 1];
      assert a[..i + 1] == Placed(p, c, j)[j - 1 := c][j := p[j - 1]];
      j := j - 1;
    }
    if j > 0 {
      PlacedSwap(p, c, j);
      assert a[j - 1] == a[..i + 1][j - 1] && a[j] == a[..i + 1][j];
    }
    InsertLastAt(p, c, j);
  }

  /** `sort.SliceStable` by (falling priority, endpoint). */
  method SortCandidates(a: array<Candidate>)
    modifies a
    ensures a[..] == Sort(old(a[..]))
  {
    ghost var s := a[..];
    for i := 0 to a.Length
      invariant a[..i] == Sort(s[..i]) && a[i..] == s[i..]
    {
      assert a[i] == s[i] && s[..i + 1] == s[..i] + [s[i]];
      SortAppend(s[..i], s[i]);
      SiftLeft(a, i);
      assert a[i + 1..] == s[i + 1..];
    }
    assert s[..a.Length] == s && a[..a.Length] == a[..];
  }

  /** `dedupeProbeCandidates`: sorts its input in place and copies the first of every endpoint. */
  method DedupeProbeCandidates(input: array<Candidate>) returns (result: seq<Candidate>)
    modifies input
    ensures result == Ranked(old(input[..])) && input[..] == Sort(old(input[..]))
  {
    SortCandidates(input);
    ghost var sorted := input[..];
    result := [];
    var seen: set<string> := {};
    for i := 0 to input.Length
      invariant input[..] == sorted
      invariant result + Dedupe(sorted[i..], seen) == Dedupe(sorted, {})
    {
      var candidate := input[i];
      assert sorted[i..][0] == candidate && sorted[i..][1..] == sorted[i + 1..];
      if candidate.endpoint != "" && candidate.endpoint !in seen {
        seen := seen + {candidate.endpoint};
        result := result + [candidate];
      }
    }
    assert sorted[input.Length..] == [];
  }

  /** The first observed4 entry. */
  method FindObserved(cs: seq<Candidate>) returns (observed: Option<Candidate>)
    ensures observed == FirstObserved(cs)
  {
    for i := 0 to |cs|
      invariant FirstObserved(cs[i..]) == FirstObserved(cs)
    {
      assert cs[i..][1..] == cs[i + 1..];
      if cs[i].kind == Observed4 {
        return Some(cs[i]);
      }
    }
    return None;
  }

  method Slice(cs: seq<Candidate>) returns (a: array<Candidate>)
    ensures fresh(a) && a[..] == cs
  {
    a := new Candidate[|cs|](i requires 0 <= i < |cs| => cs[i]);
  }

  /** The part of `buildProbeCandidates` behind normalization: the same choice as the Python agent's. */
  method ChooseInPlace(all: array<Candidate>) returns (selected: seq<Candidate>)
    modifies all
    ensures selected == Choose(old(all[..]))
  {
    ghost var cs := all[..];
    var ranked := DedupeProbeCandidates(all);
    RankedIsBest(cs);
    SortOfSorted(ranked);
    var slice := Slice(ranked);
    SortCandidates(slice);
    assert slice[..] == ranked;
    if slice.Length <= MAX_PROBE_CANDIDATES {
      return slice[..];
    }
    selected := slice[..MAX_PROBE_CANDIDATES];
    assert selected == ranked[..MAX_PROBE_CANDIDATES];
    var observed := FindObserved(slice[..]);
    if observed.Some? && !EndpointListed(selected, observed.value.endpoint) {
      var copy := Slice(selected);
      copy[copy.Length - 1] := observed.value;
      assert copy[..] == selected[MAX_PROBE_CANDIDATES - 1 := observed.value];
      SortCandidates(copy);
      selected := copy[..];
    }
  }

  function Join(parts: seq<string>): string {
    if parts == [] then "" else if |parts| == 1 then parts[0] else parts[0] + ";" + Join(parts[1..])
  }

  lemma {:induction false} JoinIsSignature(cs: seq<Candidate>, parts: seq<string>)
    requires |parts| == |cs| && forall i :: 0 <= i < |cs| ==> parts[i] == Name(cs[i].kind) + "|" + cs[i].endpoint
    ensures Join(parts) == Signature(cs)
  {
    if cs != [] { JoinIsSignature(cs[1..], parts[1..]); }
  }

  method CandidateSignature(cs: seq<Candidate>) returns (text: string)
    ensures text == Signature(cs)
  {
    var parts: seq<string> := [];
    for i := 0 to |cs|
      invariant |parts| == i && forall j :: 0 <= j < i ==> parts[j] == Name(cs[j].kind) + "|" + cs[j].endpoint
    {
      parts := parts + [Name(cs[i].kind) + "|" + cs[i].endpoint];
    }
    JoinIsSignature(cs, parts);
    text := Join(parts);
  }
}
