/** A candidate signature determines the types and endpoints it was made of, in order. */
module SignatureTheorems {
  import opened Basics
  import opened Candidates
  import opened Endpoints

  /** What a signature says about a list. */
  predicate SameChoice(a: seq<Candidate>, b: seq<Candidate>) {
    |a| == |b| && forall i :: 0 <= i < |a| ==> a[i].kind == b[i].kind && a[i].endpoint == b[i].endpoint
  }

  /** Endpoint texts have no semicolon. */
  predicate Clean(cs: seq<Candidate>) {
    forall i :: 0 <= i < |cs| ==> ';' !in cs[i].endpoint
  }

  function Item(c: Candidate): string {
    Name(c.kind) + "|" + c.endpoint
  }

  lemma FirstMark(a: string, mark: char, rest: string)
    requires mark !in a
    ensures Find(a + [mark] + rest, mark) == |a|
  {
    var l := a + [mark] + rest;
    assert l[|a|] == mark;
    assert forall j :: 0 <= j < |a| ==> l[j] == a[j];
  }

  lemma SplitAt(a: string, x: string, b: string, y: string, mark: char)
    requires mark !in a && mark !in b && a + [mark] + x == b + [mark] + y
    ensures a == b && x == y
  {
    var l := a + [mark] + x;
    FirstMark(a, mark, x);
    FirstMark(b, mark, y);
    assert a == l[..|a|] && x == l[|a| + 1..];
    assert b == l[..|a|] && y == l[|a| + 1..];
  }

  lemma NamesDiffer(k: Kind, m: Kind)
    ensures Name(k) == Name(m) ==> k == m
    ensures '|' !in Name(k) && ';' !in Name(k)
  {
    var n, o := Name(k), Name(m);
    assert k == Predicted4 || k == Observed4 || k == Observed6 || k == Reflexive6 || |n| < 8;
    if n == o { assert |n| == |o| && n[0] == o[0] && n[3] == o[3] && n[|n| - 1] == o[|o| - 1]; }
  }

  lemma SameItem(c: Candidate, d: Candidate)
    requires Item(c) == Item(d)
    ensures c.kind == d.kind && c.endpoint == d.endpoint
  {
    NamesDiffer(c.kind, d.kind);
    NamesDiffer(d.kind, c.kind);
    SplitAt(Name(c.kind), c.endpoint, Name(d.kind), d.endpoint, '|');
  }

  lemma SignatureHead(cs: seq<Candidate>)
    requires cs != [] && Clean(cs)
    ensures ';' !in Item(cs[0])
    ensures |cs| == 1 ==> Signature(cs) == Item(cs[0])
    ensures |cs| > 1 ==> Signature(cs) == Item(cs[0]) + ";" + Signature(cs[1..])
    ensures ';' in Signature(cs) <==> |cs| > 1
  {
    NamesDiffer(cs[0].kind, cs[0].kind);
    if |cs| > 1 { assert Signature(cs)[|Item(cs[0])|] == ';'; }
  }

  /** Two signatures are equal if the heads and what follows them are. */
  lemma SameHead(a: seq<Candidate>, b: seq<Candidate>)
    requires a != [] && b != [] && Clean(a) && Clean(b)
    ensures Signature(a) == Signature(b)
            <==> (|a| > 1 <==> |b| > 1) && Item(a[0]) == Item(b[0]) && Signature(a[1..]) == Signature(b[1..])
  {
    SignatureHead(a);
    SignatureHead(b);
    if |a| > 1 && |b| > 1 && Signature(a) == Signature(b) {
      SplitAt(Item(a[0]), Signature(a[1..]), Item(b[0]), Signature(b[1..]), ';');
    }
  }

  lemma SameChoiceHead(a: seq<Candidate>, b: seq<Candidate>)
    requires a != [] && b != []
    ensures SameChoice(a, b) <==> Item(a[0]) == Item(b[0]) && SameChoice(a[1..], b[1..])
  {
    if Item(a[0]) == Item(b[0]) && SameChoice(a[1..], b[1..]) {
      SameItem(a[0], b[0]);
      assert forall i :: 1 <= i < |a| ==> a[i] == a[1..][i - 1] && b[i] == b[1..][i - 1];
    }
    if SameChoice(a, b) {
      assert forall i :: 0 <= i < |a[1..]| ==> a[1..][i] == a[i + 1] && b[1..][i] == b[i + 1];
    }
  }

  /** Equal signatures come from equal choices. */
  lemma {:induction false} SignatureTells(a: seq<Candidate>, b: seq<Candidate>)
    requires Clean(a) && Clean(b)
    ensures Signature(a) == Signature(b) <==> SameChoice(a, b)
  {
    if a != [] && b != [] {
      SignatureTells(a[1..], b[1..]);
      SameHead(a, b);
      SameChoiceHead(a, b);
    } else if a != [] {
      SignatureHead(a);
    } else if b != [] {
      SignatureHead(b);
    }
  }
}
