/** Endpoint texts: how they are written, and how they are read again. */
module Endpoints {
  import opened Basics

  /** What the address library knows about a parsed address. */
  datatype Host = Host(text: string, v6: bool, isPrivate: bool, isGlobal: bool, isLinkLocal: bool, isReserved: bool)

  /**
   * The libraries the parser calls: `ip_address` and `int`.  `isReserved` of a host stands for
   * unspecified or multicast.
   */
  datatype Library = Library(address: string -> Option<Host>, number: string -> Option<int>)

  datatype Endpoint = Endpoint(text: string, host: Host, port: int)

  function Find(s: string, c: char): (i: nat)
    ensures i <= |s| && (forall j :: 0 <= j < i ==> s[j] != c) && (i < |s| ==> s[i] == c)
  {
    if s == "" || s[0] == c then 0 else 1 + Find(s[1..], c)
  }

  /** The position of the last `c`, or the length. */
  function FindLast(s: string, c: char): (i: nat)
    ensures i <= |s| && (i < |s| ==> s[i] == c && c !in s[i + 1..]) && (i == |s| ==> c !in s)
  {
    if s == "" then 0
    else if s[|s| - 1] == c then |s| - 1
    else
      var i := FindLast(s[..|s| - 1], c);
      if i == |s| - 1 then |s| else i
  }

  function Digit(n: int): char
    requires 0 <= n < 10
  {
    "0123456789"[n]
  }

  function Decimal(n: nat): (s: string)
    ensures s != "" && ':' !in s && ']' !in s
  {
    if n < 10 then [Digit(n)] else Decimal(n / 10) + [Digit(n % 10)]
  }

  function Format(h: Host, port: nat): string {
    if h.v6 then "[" + h.text + "]:" + Decimal(port) else h.text + ":" + Decimal(port)
  }

  /** Host text and port text, or nothing when the shape is wrong. */
  function Split(s: string): Option<(string, string)> {
    if ':' !in s then None
    else if s[0] == '[' then
      var closing := Find(s, ']');
      if closing <= 1 || closing + 1 >= |s| || s[closing + 1] != ':' then None
      else Some((s[1..closing], s[closing + 2..]))
    else
      var colon := FindLast(s, ':');
      if ':' in s[..colon] then None else Some((s[..colon], s[colon + 1..]))
  }

  /** `parse_endpoint` and, for the text alone, `validate_endpoint`. */
  function Parse(lib: Library, s: string): Option<Endpoint> {
    match Split(s)
    case None => None
    case Some(parts) =>
      var host, port := lib.address(parts.0), lib.number(parts.1);
      if host.None? || port.None? || !(1 <= port.value <= 65535) || host.value.isReserved then None
      else Some(Endpoint(Format(host.value, port.value), host.value, port.value))
  }

  /**
   * The libraries read back what they print: the compressed text of an address is that address, it
   * has a colon exactly for IPv6 and no bracket, and the decimal text of a number is that number.
   */
  ghost predicate Faithful(lib: Library) {
    && (forall t :: lib.address(t).Some? ==> Canonical(lib, lib.address(t).value))
    && (forall n: nat :: lib.number(Decimal(n)) == Some(n))
  }

  predicate Canonical(lib: Library, h: Host) {
    && lib.address(h.text) == Some(h)
    && h.text != "" && (':' in h.text <==> h.v6) && '[' !in h.text && ']' !in h.text
  }

  lemma FindIs(s: string, c: char, i: nat)
    requires i < |s| && s[i] == c && forall j :: 0 <= j < i ==> s[j] != c
    ensures Find(s, c) == i
  {
  }

  lemma SplitFormat(h: Host, port: nat)
    requires h.text != "" && (':' in h.text <==> h.v6) && '[' !in h.text && ']' !in h.text
    ensures Split(Format(h, port)) == Some((h.text, Decimal(port)))
  {
    if h.v6 {
      SplitBracketed(h.text, Decimal(port));
    } else {
      SplitPlain(h.text, Decimal(port));
    }
  }

  lemma SplitBracketed(host: string, port: string)
    requires host != "" && ']' !in host
    ensures Split("[" + host + "]:" + port) == Some((host, port))
  {
    var s, n := "[" + host + "]:" + port, |host|;
    assert s[n + 1] == ']' && s[n + 2] == ':' && s[0] == '[';
    forall j | 0 <= j < n + 1 ensures s[j] != ']' {
      if j > 0 { assert s[j] == host[j - 1]; }
    }
    FindIs(s, ']', n + 1);
    assert s[1..n + 1] == host && s[n + 3..] == port;
  }

  lemma LastIs(s: string, c: char, i: nat)
    requires i < |s| && s[i] == c && c !in s[i + 1..]
    ensures FindLast(s, c) == i
  {
    var k := FindLast(s, c);
    assert s[i] in s;
    assert forall j :: k < j < |s| ==> s[k + 1..][j - k - 1] == s[j];
    assert forall j :: i < j < |s| ==> s[i + 1..][j - i - 1] == s[j];
  }

  lemma SplitPlain(host: string, port: string)
    requires host != "" && ':' !in host && host[0] != '[' && ':' !in port
    ensures Split(host + ":" + port) == Some((host, port))
  {
    var s, n := host + ":" + port, |host|;
    assert s[n] == ':' && s[..n] == host && s[n + 1..] == port;
    assert s[0] == host[0];
    LastIs(s, ':', n);
  }

  /** A canonical endpoint parses to itself, in every component. */
  lemma FormatParses(lib: Library, h: Host, port: nat)
    requires Faithful(lib) && Canonical(lib, h) && 1 <= port <= 65535 && !h.isReserved
    ensures Parse(lib, Format(h, port)) == Some(Endpoint(Format(h, port), h, port))
  {
    SplitFormat(h, port);
  }

  /** Parsing is idempotent: the normalized text is a fixed point that denotes the same address. */
  lemma ParseIsIdempotent(lib: Library, s: string)
    requires Faithful(lib) && Parse(lib, s).Some?
    ensures Parse(lib, Parse(lib, s).value.text) == Parse(lib, s)
    ensures Canonical(lib, Parse(lib, s).value.host)
  {
    var e, parts := Parse(lib, s).value, Split(s).value;
    assert lib.address(parts.0) == Some(e.host);
    FormatParses(lib, e.host, e.port);
  }

  /** The two shapes of an endpoint text. */
  predicate IsSplit(s: string, host: string, port: string) {
    || (s == "[" + host + "]:" + port && host != "" && ']' !in host)
    || (s == host + ":" + port && ':' !in host && ':' !in port && s[0] != '[')
  }

  lemma SplitGives(s: string)
    requires Split(s).Some?
    ensures IsSplit(s, Split(s).value.0, Split(s).value.1)
  {
    if s[0] == '[' {
      var n := Find(s, ']');
      assert s == "[" + s[1..n] + "]:" + s[n + 2..];
      forall i | 0 <= i < |s[1..n]| ensures s[1..n][i] != ']' {
        assert s[1..n][i] == s[i + 1];
      }
    } else {
      var n := FindLast(s, ':');
      assert s == s[..n] + ":" + s[n + 1..];
    }
  }

  lemma SplitTakes(s: string, host: string, port: string)
    requires IsSplit(s, host, port)
    ensures Split(s) == Some((host, port))
  {
    if s == "[" + host + "]:" + port && host != "" && ']' !in host {
      SplitBracketed(host, port);
    } else {
      var n := |host|;
      assert s[n] == ':' && s[..n] == host && s[n + 1..] == port;
      LastIs(s, ':', n);
    }
  }

  predicate Denotes(lib: Library, host: string, port: string, e: Endpoint) {
    && lib.address(host) == Some(e.host) && lib.number(port) == Some(e.port) && 1 <= e.port <= 65535
    && !e.host.isReserved && e.text == Format(e.host, e.port)
  }

  /**
   * The texts that are endpoints, and what they denote: a host and a port, the host in brackets exactly if it is
   * written so, both read by the library, the port in range and the address neither unspecified nor multicast.
   */
  lemma ParsesExactly(lib: Library, s: string, e: Endpoint)
    ensures Parse(lib, s) == Some(e) <==> exists host, port :: IsSplit(s, host, port) && Denotes(lib, host, port, e)
  {
    if Parse(lib, s) == Some(e) {
      SplitGives(s);
      var parts := Split(s).value;
      assert Denotes(lib, parts.0, parts.1, e);
    }
    if host, port :| IsSplit(s, host, port) && Denotes(lib, host, port, e) {
      SplitTakes(s, host, port);
    }
  }
}
