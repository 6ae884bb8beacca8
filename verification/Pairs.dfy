/** Which side of a pair of servers drives the connection. */
module Pairs {
  import opened Basics

  newtype byte = b: int | 0 <= b < 256

  datatype Ipv4 = Ipv4(a: byte, b: byte, c: byte, d: byte)

  /** `int(address)`. */
  function Number(x: Ipv4): nat {
    ((x.a as nat * 256 + x.b as nat) * 256 + x.c as nat) * 256 + x.d as nat
  }

  /** `net.IP` in four bytes. */
  function Bytes(x: Ipv4): seq<byte> {
    [x.a, x.b, x.c, x.d]
  }

  /** What an address text denotes; an IPv4-mapped IPv6 text, like `::ffff:10.0.0.5`, carries an IPv4 address. */
  datatype Ip = V4(v4: Ipv4) | Mapped(v4: Ipv4) | V6

  /** The address libraries; nothing for a malformed text. */
  type AddressReader = string -> Option<Ip>

  /** `ip_address(text)` with version 4. */
  function PyV4(read: AddressReader, text: string): Option<Ipv4> {
    match read(text)
    case Some(V4(x)) => Some(x)
    case _ => None
  }

  /** `net.ParseIP(text).To4()`, which unwraps a mapped address. */
  function GoV4(read: AddressReader, text: string): Option<Ipv4> {
    match read(text)
    case Some(V4(x)) => Some(x)
    case Some(Mapped(x)) => Some(x)
    case _ => None
  }

  /** `server_initiator_owns_pair` of the coordinator and of the agent. */
  predicate Owns(read: AddressReader, local: string, remote: string) {
    var l, r := PyV4(read, local), PyV4(read, remote);
    l.Some? && r.Some? && l != r && Number(l.value) < Number(r.value)
  }

  /** The four bytes, most significant first. */
  lemma NumberIs(x: Ipv4)
    ensures Number(x) == 16777216 * x.a as nat + 65536 * x.b as nat + 256 * x.c as nat + x.d as nat
  {
  }

  /** `bytes.Compare(x, y) < 0`. */
  predicate Before(x: seq<byte>, y: seq<byte>) {
    y != [] && (x == [] || x[0] < y[0] || (x[0] == y[0] && Before(x[1..], y[1..])))
  }

  /** `serverInitiatorOwnsPair` of the Go client. */
  predicate OwnsGo(read: AddressReader, local: string, remote: string) {
    var l, r := GoV4(read, local), GoV4(read, remote);
    l.Some? && r.Some? && Bytes(l.value) != Bytes(r.value) && Before(Bytes(l.value), Bytes(r.value))
  }

  lemma BytesOrderIsNumeric(x: Ipv4, y: Ipv4)
    ensures Before(Bytes(x), Bytes(y)) <==> Number(x) < Number(y)
    ensures Bytes(x) == Bytes(y) <==> x == y
    ensures Number(x) == Number(y) ==> x == y
  {
    var p, q := Bytes(x), Bytes(y);
    assert p[1..] == [x.b, x.c, x.d] && p[1..][1..] == [x.c, x.d] && p[1..][1..][1..] == [x.d];
    assert q[1..] == [y.b, y.c, y.d] && q[1..][1..] == [y.c, y.d] && q[1..][1..][1..] == [y.d];
    assert !Before(p[1..][1..][1..][1..], q[1..][1..][1..][1..]);
    assert Before(p[1..][1..][1..], q[1..][1..][1..]) <==> x.d < y.d;
    assert Before(p[1..][1..], q[1..][1..]) <==> x.c < y.c || (x.c == y.c && x.d < y.d);
    assert Before(p[1..], q[1..]) <==> x.b < y.b || (x.b == y.b && (x.c < y.c || (x.c == y.c && x.d < y.d)));
    assert p == q ==> p[0] == q[0] && p[1] == q[1] && p[2] == q[2] && p[3] == q[3];
  }

  predicate IsMapped(read: AddressReader, text: string) {
    read(text).Some? && read(text).value.Mapped?
  }

  /**
   * The Go client decides a pair as the Python programs do, exactly unless an IPv4-mapped text is
   * involved for which it says yes: the Python programs take that for an IPv6 address and say no.
   */
  lemma SameDecision(read: AddressReader, local: string, remote: string)
    ensures Owns(read, local, remote) ==> OwnsGo(read, local, remote)
    ensures (Owns(read, local, remote) <==> OwnsGo(read, local, remote))
            <==> !(OwnsGo(read, local, remote) && (IsMapped(read, local) || IsMapped(read, remote)))
  {
    var l, r := GoV4(read, local), GoV4(read, remote);
    if l.Some? && r.Some? {
      BytesOrderIsNumeric(l.value, r.value);
    }
  }

  // ---------------------------------------------------------------- the peer list

  /** A peer of the coordinator's WireGuard interface. */
  datatype Peer = Peer(key: string, ip: string, server: bool, endpoint: string, instance: string)

  predicate Initiates(read: AddressReader, from: Peer, to: Peer) {
    && to.server && to.key != "" && to.ip != "" && to.key != from.key && to.ip != from.ip
    && (from.server ==> Owns(read, from.ip, to.ip))
  }

  /** The servers that get the offers of `from`. */
  function Targets(read: AddressReader, from: Peer, peers: seq<Peer>): seq<Peer> {
    if peers == [] then []
    else if Initiates(read, from, peers[0]) then [peers[0]] + Targets(read, from, peers[1..])
    else Targets(read, from, peers[1..])
  }

  method InitiatorServers(read: AddressReader, from: Peer, peers: seq<Peer>) returns (result: seq<Peer>)
    ensures result == Targets(read, from, peers)
  {
    result := [];
    assert peers[0..] == peers;
    for i := 0 to |peers|
      invariant Targets(read, from, peers) == result + Targets(read, from, peers[i..])
    {
      var peer := peers[i];
      assert peers[i..][0] == peer && peers[i..][1..] == peers[i + 1..];
      if !peer.server {
        continue;
      }
      if peer.key == "" || peer.ip == "" {
        continue;
      }
      if peer.key == from.key || peer.ip == from.ip {
        continue;
      }
      if from.server && !Owns(read, from.ip, peer.ip) {
        continue;
      }
      result := result + [peer];
    }
    assert peers[|peers|..] == [];
    assert result + [] == result;
  }

  lemma {:induction false} TargetsExactly(read: AddressReader, from: Peer, peers: seq<Peer>, to: Peer)
    ensures to in Targets(read, from, peers) <==> to in peers && Initiates(read, from, to)
    ensures Initiates(read, from, to)
            <==> && to.server && |to.key| > 0 && |to.ip| > 0 && from.key != to.key && from.ip != to.ip
                 && (from.server ==>
                       && read(from.ip).Some? && read(from.ip).value.V4? && read(to.ip).Some? && read(to.ip).value.V4?
                       && Number(read(from.ip).value.v4) < Number(read(to.ip).value.v4))
  {
    if peers != [] {
      TargetsExactly(read, from, peers[1..], to);
      assert peers == [peers[0]] + peers[1..];
    }
  }

  const INITIATOR_ONLINE_MAX_AGE := 180.0

  /** `eligible_initiator_server`; `latest` is the relay's last handshake with the peer, 0 for none. */
  predicate Eligible(read: AddressReader, localIp: string, peer: Peer, latest: int, now: real) {
    && peer.server && peer.key != "" && peer.ip != "" && peer.endpoint != "" && Owns(read, localIp, peer.ip)
    && latest != 0 && now - latest as real <= INITIATOR_ONLINE_MAX_AGE
  }

  /** The peer can be probed now: its endpoint is known and its last handshake is at most 180 seconds old. */
  predicate Online(peer: Peer, latest: int, now: real) {
    peer.endpoint != "" && latest != 0 && now - latest as real <= 180.0
  }

  /** Overlay addresses are IPv4, and distinct peers have distinct keys and addresses. */
  predicate ProperServers(read: AddressReader, peers: seq<Peer>) {
    && (forall i :: 0 <= i < |peers| ==>
          peers[i].server && peers[i].key != "" && peers[i].ip != "" && PyV4(read, peers[i].ip).Some?)
    && (forall i, j :: 0 <= i < j < |peers| ==>
          peers[i].key != peers[j].key && read(peers[i].ip) != read(peers[j].ip))
  }

  /**
   * Among any servers, every pair has exactly one driving side.  That side and no other is offered to the
   * other one by the coordinator; it is the only side whose agent ever initiates, and it does so at every
   * moment at which the other one is online; and the Go client decides the same.
   */
  lemma EveryPairHasOneDriver(read: AddressReader, peers: seq<Peer>, i: nat, j: nat)
    requires ProperServers(read, peers) && i < |peers| && j < |peers| && i != j
    ensures peers[j] in Targets(read, peers[i], peers) <==> peers[i] !in Targets(read, peers[j], peers)
    ensures forall latest, now ::
              Eligible(read, peers[i].ip, peers[j], latest, now)
              <==> peers[j] in Targets(read, peers[i], peers) && Online(peers[j], latest, now)
    ensures peers[j] in Targets(read, peers[i], peers) <==> OwnsGo(read, peers[i].ip, peers[j].ip)
  {
    TargetsExactly(read, peers[i], peers, peers[j]);
    TargetsExactly(read, peers[j], peers, peers[i]);
    SameDecision(read, peers[i].ip, peers[j].ip);
    var x, y := PyV4(read, peers[i].ip).value, PyV4(read, peers[j].ip).value;
    assert x != y by {
      if i < j {
        assert read(peers[i].ip) != read(peers[j].ip);
      } else {
        assert read(peers[j].ip) != read(peers[i].ip);
      }
    }
    BytesOrderIsNumeric(x, y);
    assert peers[i].ip != peers[j].ip && peers[i].key != peers[j].key;
  }
}
