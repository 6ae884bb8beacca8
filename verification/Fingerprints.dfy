/** Equal fingerprints belong to equal offers. */
module Fingerprints {
  import opened Basics
  import opened Candidates
  import opened Endpoints
  import opened CandidateExchange
  import opened Pairs
  import opened Coordinator

  /** A text that cannot be confused with the separator. */
  predicate Plain(s: string) {
    '|' !in s
  }

  /** Identifiers, keys and endpoints have no bar in them; the JSON text may have. */
  predicate PlainPush(p: Push) {
    && Plain(p.id) && Plain(p.client.key) && Plain(p.client.instance) && Plain(p.client.endpoint)
    && Plain(p.lan) && Plain(p.server.key) && Plain(p.server.endpoint)
  }

  ghost predicate Injective(json: Json) {
    forall a, b :: json(a) == json(b) ==> a == b
  }

  lemma FirstBar(a: string, x: string)
    requires Plain(a)
    ensures Find(a + "|" + x, '|') == |a|
  {
    var l := a + "|" + x;
    assert l[|a|] == '|';
    assert forall j :: 0 <= j < |a| ==> l[j] == a[j];
  }

  lemma {:induction false} LastBar(x: string, a: string)
    requires Plain(a)
    ensures FindLast(x + "|" + a, '|') == |x|
    decreases |a|
  {
    var l := x + "|" + a;
    if a != "" {
      var a' := a[..|a| - 1];
      assert l[..|l| - 1] == x + "|" + a' && l[|l| - 1] == a[|a| - 1];
      LastBar(x, a');
    }
  }

  /** The first bar separates. */
  lemma SplitFirst(a: string, x: string, b: string, y: string)
    requires Plain(a) && Plain(b) && a + "|" + x == b + "|" + y
    ensures a == b && x == y
  {
    var l := a + "|" + x;
    FirstBar(a, x);
    FirstBar(b, y);
    assert a == l[..|a|] && x == l[|a| + 1..];
    assert b == l[..|a|] && y == l[|a| + 1..];
  }

  /** The last bar separates. */
  lemma SplitLast(x: string, a: string, y: string, b: string)
    requires Plain(a) && Plain(b) && x + "|" + a == y + "|" + b
    ensures a == b && x == y
  {
    var l := x + "|" + a;
    LastBar(x, a);
    LastBar(y, b);
    assert x == l[..|x|] && a == l[|x| + 1..];
    assert y == l[..|x|] && b == l[|x| + 1..];
  }

  /** A join of at least two fields is its first field, a bar and the join of the others. */
  lemma JoinTail(f: seq<string>)
    requires |f| >= 2
    ensures Join(f) == f[0] + "|" + Join(f[1..])
  {
  }

  lemma {:induction false} SplitHeads(n: nat, f: seq<string>, g: seq<string>)
    requires n < |f| == |g| && Join(f) == Join(g)
    requires forall i :: 0 <= i < n ==> Plain(f[i]) && Plain(g[i])
    ensures f[..n] == g[..n] && Join(f[n..]) == Join(g[n..])
  {
    if n > 0 {
      JoinTail(f);
      JoinTail(g);
      SplitFirst(f[0], Join(f[1..]), g[0], Join(g[1..]));
      SplitHeads(n - 1, f[1..], g[1..]);
      assert f[1..][n - 1..] == f[n..] && g[1..][n - 1..] == g[n..];
      assert f[..n] == [f[0]] + f[1..][..n - 1] && g[..n] == [g[0]] + g[1..][..n - 1];
    } else {
      assert f[0..] == f && g[0..] == g;
    }
  }

  lemma JoinOfThree(a: string, b: string, c: string)
    ensures Join([a, b, c]) == (a + "|" + b) + "|" + c
  {
    assert [a, b, c][1..] == [b, c] && [b, c][1..] == [c];
    assert Join([c]) == c && Join([b, c]) == b + "|" + c;
    assert a + "|" + (b + "|" + c) == (a + "|" + b) + "|" + c;
  }

  /** The fingerprint determines everything that was joined. */
  lemma FingerprintIsInjective(json: Json, p: Push, q: Push)
    requires Injective(json) && PlainPush(p) && PlainPush(q) && Fingerprint(json, p) == Fingerprint(json, q)
    ensures p.id == q.id && p.client.key == q.client.key && p.client.instance == q.client.instance
    ensures p.client.endpoint == q.client.endpoint && p.lan == q.lan && p.candidates == q.candidates
    ensures p.server.key == q.server.key && p.server.endpoint == q.server.endpoint
  {
    var f, g := Fields(json, p), Fields(json, q);
    SplitHeads(5, f, g);
    assert forall i :: 0 <= i < 5 ==> f[i] == f[..5][i] && g[i] == g[..5][i];
    assert f[0] == g[0] && f[1] == g[1] && f[2] == g[2] && f[3] == g[3] && f[4] == g[4];
    assert f[5..] == [f[5], f[6], f[7]] && g[5..] == [g[5], g[6], g[7]];
    JoinOfThree(f[5], f[6], f[7]);
    JoinOfThree(g[5], g[6], g[7]);
    SplitLast(f[5] + "|" + f[6], f[7], g[5] + "|" + g[6], g[7]);
    SplitLast(f[5], f[6], g[5], g[6]);
  }

  /** Two pushes of one session with one fingerprint are the same offer. */
  lemma SamePrintSamePayload(json: Json, lib: Library, p: Push, q: Push)
    requires Injective(json) && PlainPush(p) && PlainPush(q) && Fingerprint(json, p) == Fingerprint(json, q)
    requires p.started == q.started && p.client.ip == q.client.ip
    ensures PayloadOf(lib, p) == PayloadOf(lib, q)
  {
    FingerprintIsInjective(json, p, q);
  }
}
