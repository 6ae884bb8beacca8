/** The PCP (RFC 6887) and NAT-PMP (RFC 6886) mapping messages, byte by byte. */
module PortMapCodec {
  import opened Basics

  type Byte = b: int | 0 <= b < 256

  type Packet = seq<Byte>

  const IPPROTO_UDP: Byte := 17

  datatype Result<+T> = Ok(value: T) | Err(error: Error)

  datatype Error =
    | Malformed          // too short, or wrong version or opcode
    | Refused(code: int) // non-zero result
    | Mismatch           // not the answer to this request
    | NotPublic          // no usable external address or port
    | OutOfRange         // a field does not fit its width

  /** Big-endian unsigned integers. */
  function U16(p: Packet, at: nat): (n: int)
    requires at + 2 <= |p|
    ensures 0 <= n < 0x1_0000
  {
    (p[at] as int) * 256 + (p[at + 1] as int)
  }

  function U32(p: Packet, at: nat): (n: int)
    requires at + 4 <= |p|
    ensures 0 <= n < 0x1_0000_0000
  {
    U16(p, at) * 0x1_0000 + U16(p, at + 2)
  }

  function Pack16(n: int): (p: Packet)
    requires 0 <= n < 0x1_0000
    ensures |p| == 2 && U16(p, 0) == n
  {
    [n / 256, n % 256]
  }

  function Pack32(n: int): (p: Packet)
    requires 0 <= n < 0x1_0000_0000
    ensures |p| == 4 && U32(p, 0) == n
  {
    var hi, lo := n / 0x1_0000, n % 0x1_0000;
    assert hi * 0x1_0000 + lo == n;
    var p := Pack16(hi) + Pack16(lo);
    assert p[0..2] == Pack16(hi) && p[2..4] == Pack16(lo);
    assert U16(p, 0) == U16(Pack16(hi), 0) && U16(p, 2) == U16(Pack16(lo), 0);
    p
  }

  function Zeros(n: nat): (p: Packet)
    ensures |p| == n
  {
    seq(n, _ => 0)
  }

  const MAPPED_PREFIX: Packet := [0, 0, 0, 0, 0, 0, 0, 0, 0, 0, 255, 255]

  // ---------------------------------------------------------------- PCP

  predicate Encodable(port: int, lifetime: int) {
    0 <= port < 0x1_0000 && 0 <= lifetime < 0x1_0000_0000
  }

  /** The MAP request: a header of 24 bytes and 36 bytes of opcode data. */
  function PcpRequest(local: Packet, port: int, lifetime: int, nonce: Packet): (p: Packet)
    requires |local| == 4 && |nonce| == 12 && Encodable(port, lifetime)
    ensures |p| == 60
  {
    [2, 1, 0, 0] + Pack32(lifetime) + MAPPED_PREFIX + local
    + nonce + [IPPROTO_UDP, 0, 0, 0] + Pack16(port) + Pack16(port) + Zeros(16)
  }

  function Overwrite(packet: Packet, at: nat, p: Packet): (q: Packet)
    requires at + |p| <= |packet|
    ensures |q| == |packet|
  {
    packet[..at] + p + packet[at + |p|..]
  }

  /** Write `p` into the packet at `at`. */
  method Fill(packet: array<Byte>, at: nat, p: Packet)
    requires at + |p| <= packet.Length
    modifies packet
    ensures packet[..] == Overwrite(old(packet[..]), at, p)
  {
    for i := 0 to |p|
      invariant packet[..at] == old(packet[..at])
      invariant packet[at..at + i] == p[..i]
      invariant packet[at + i..] == old(packet[at + i..])
    {
      packet[at + i] := p[i];
    }
    assert packet[..] == packet[..at] + packet[at..at + |p|] + packet[at + |p|..];
  }

  /** Writing at the end of what is written so far. */
  lemma WriteNext(head: Packet, n: nat, p: Packet)
    requires |p| <= n
    ensures Overwrite(head + Zeros(n), |head|, p) == (head + p) + Zeros(n - |p|)
  {
  }

  lemma SkipNext(head: Packet, n: nat, k: nat)
    requires k <= n
    ensures head + Zeros(n) == (head + Zeros(k)) + Zeros(n - k)
  {
  }

  /** The fields written one after the other into a zeroed packet make up the request. */
  lemma Layout(local: Packet, port: int, lifetime: int, nonce: Packet)
    requires |local| == 4 && |nonce| == 12 && Encodable(port, lifetime)
    ensures var p1 := Overwrite([2, 1] + Zeros(58), 4, Pack32(lifetime));
            var p2 := Overwrite(Overwrite(p1, 8, MAPPED_PREFIX + local), 24, nonce);
            Overwrite(Overwrite(p2[36 := IPPROTO_UDP], 40, Pack16(port)), 42, Pack16(port))
            == PcpRequest(local, port, lifetime, nonce)
  {
    var h0: Packet := [2, 1] + Zeros(2);
    var h1 := h0 + Pack32(lifetime);
    var h2 := h1 + (MAPPED_PREFIX + local);
    var h3 := h2 + nonce;
    var h4 := h3 + [IPPROTO_UDP];
    var h5 := h4 + Zeros(3);
    var h6 := h5 + Pack16(port);
    SkipNext([2, 1], 58, 2);
    WriteNext(h0, 56, Pack32(lifetime));
    WriteNext(h1, 52, MAPPED_PREFIX + local);
    WriteNext(h2, 36, nonce);
    assert (h3 + Zeros(24))[36 := IPPROTO_UDP] == h4 + Zeros(23);
    SkipNext(h4, 23, 3);
    WriteNext(h5, 20, Pack16(port));
    WriteNext(h6, 18, Pack16(port));
    LastJoin(h0, Pack32(lifetime), MAPPED_PREFIX, local, nonce, h5, port);
  }

  lemma LastJoin(h0: Packet, life: Packet, prefix: Packet, local: Packet, nonce: Packet, h5: Packet, port: int)
    requires 0 <= port < 0x1_0000 && h0 == [2, 1] + Zeros(2)
    requires h5 == (((h0 + life) + (prefix + local)) + nonce) + [IPPROTO_UDP] + Zeros(3)
    ensures (h5 + Pack16(port) + Pack16(port)) + Zeros(16)
         == [2, 1, 0, 0] + life + prefix + local + nonce + [IPPROTO_UDP, 0, 0, 0] + Pack16(port) + Pack16(port) + Zeros(16)
  {
    assert h0 == [2, 1, 0, 0];
    assert [IPPROTO_UDP, 0, 0, 0] == [IPPROTO_UDP] + Zeros(3);
  }

  /** `build_pcp_map_request`; `drawn` is what the random source gives if it is asked: without a nonce, or with "". */
  method BuildPcpMapRequest(local: Packet, port: int, lifetime: int, given: Option<Packet>, drawn: Packet)
    returns (r: Result<(Packet, Packet)>)
    requires |local| == 4 && |drawn| == 12
    ensures var nonce := if given.Some? && |given.value| > 0 then given.value else drawn;
            r == if |nonce| != 12 then Err(Malformed)
                 else if !(0 <= port <= 65535 && 0 <= lifetime <= 4294967295) then Err(OutOfRange)
                 else Ok((PcpRequest(local, port, lifetime, nonce), nonce))
  {
    var nonce := drawn;
    if given.Some? && given.value != [] {
      nonce := given.value;
    }
    if |nonce| != 12 {
      return Err(Malformed);
    }
    if !Encodable(port, lifetime) {
      return Err(OutOfRange);
    }
    var packet := new Byte[60](_ => 0);
    packet[0] := 2;
    packet[1] := 1;
    assert packet[..] == [2, 1] + Zeros(58);
    Fill(packet, 4, Pack32(lifetime));
    Fill(packet, 8, MAPPED_PREFIX + local);
    Fill(packet, 24, nonce);
    ghost var filled := packet[..];
    packet[36] := IPPROTO_UDP;
    assert packet[..] == filled[36 := IPPROTO_UDP];
    Fill(packet, 40, Pack16(port));
    Fill(packet, 42, Pack16(port));
    Layout(local, port, lifetime, nonce);
    r := Ok((packet[..], nonce));
  }

  /** External address, external port, lifetime. */
  datatype External = External(address: Packet, port: int, lifetime: int)

  /** `parse_pcp_map_response`; `isPublic` is the address library's verdict on an IPv4 address. */
  function ParsePcp(p: Packet, nonce: Packet, port: int, isPublic: Packet -> bool): Result<External> {
    if |p| < 60 || p[0] != 2 || p[1] != 0x81 then Err(Malformed)
    else if p[2] != 0 then Err(Refused(p[2]))
    else if p[24..36] != nonce || p[36] != IPPROTO_UDP then Err(Mismatch)
    else if U16(p, 40) != port then Err(Mismatch)
    else if p[44..56] != MAPPED_PREFIX then Err(NotPublic)
    else if !isPublic(p[56..60]) || U16(p, 42) == 0 then Err(NotPublic)
    else Ok(External(p[56..60], U16(p, 42), U32(p, 4)))
  }

  /**
   * A success response as sections 7.2 and 11.1 of RFC 6887 build it from a request: the nonce, the
   * protocol and the internal port are copied, the rest is assigned.
   */
  function PcpSuccess(request: Packet, epoch: int, lifetime: int, port: int, address: Packet): (p: Packet)
    requires |request| == 60 && |address| == 4
    requires 0 <= epoch < 0x1_0000_0000 && Encodable(port, lifetime)
    ensures |p| == 60
  {
    [2, 0x81, 0, 0] + Pack32(lifetime) + Pack32(epoch) + Zeros(12)
    + request[24..42] + Pack16(port) + MAPPED_PREFIX + address
  }

  lemma PcpSuccessFields(request: Packet, epoch: int, lifetime: int, port: int, address: Packet)
    requires |request| == 60 && |address| == 4
    requires 0 <= epoch < 0x1_0000_0000 && Encodable(port, lifetime)
    ensures var p := PcpSuccess(request, epoch, lifetime, port, address);
            && p[0] == 2 && p[1] == 0x81 && p[2] == 0 && U32(p, 4) == lifetime
            && p[24..36] == request[24..36] && p[36] == request[36] && U16(p, 40) == U16(request, 40)
            && U16(p, 42) == port && p[44..56] == MAPPED_PREFIX && p[56..60] == address
  {
    var p := PcpSuccess(request, epoch, lifetime, port, address);
    assert p[4..8] == Pack32(lifetime);
    assert U32(p, 4) == U32(p[4..8], 0);
    assert p[24..42] == request[24..42];
    assert p[24..36] == p[24..42][..12] && request[24..36] == request[24..42][..12];
    assert p[36] == p[24..42][12] && p[40] == p[24..42][16] && p[41] == p[24..42][17];
    assert p[42..44] == Pack16(port);
    assert U16(p, 42) == U16(p[42..44], 0);
  }

  /** The byte of the request is neither a field nor part of one. */
  predicate Reserved(i: nat) {
    i == 2 || i == 3 || 37 <= i < 40 || 44 <= i < 60
  }

  /**
   * A gateway reads the request by sections 7.1 and 11.1 of RFC 6887: version 2, opcode MAP, the lifetime, the
   * IPv4-mapped address of the client, the nonce, protocol 17, the internal port twice, and zeros elsewhere.
   */
  lemma PcpRequestFields(local: Packet, port: int, lifetime: int, nonce: Packet)
    requires |local| == 4 && |nonce| == 12 && Encodable(port, lifetime)
    ensures var p := PcpRequest(local, port, lifetime, nonce);
            && p[0] == 2 && p[1] == 1 && U32(p, 4) == lifetime
            && p[8..18] == Zeros(10) && p[18] == 255 && p[19] == 255 && p[20..24] == local
            && p[24..36] == nonce && p[36] == 17 && U16(p, 40) == port && U16(p, 42) == port
            && forall i :: 0 <= i < 60 && Reserved(i) ==> p[i] == 0
  {
    var p := PcpRequest(local, port, lifetime, nonce);
    assert p[4..8] == Pack32(lifetime) && U32(p, 4) == U32(p[4..8], 0);
    assert p[40..42] == Pack16(port) && p[42..44] == Pack16(port);
    assert U16(p, 40) == U16(p[40..42], 0) && U16(p, 42) == U16(p[42..44], 0);
    assert p[8..20] == MAPPED_PREFIX && MAPPED_PREFIX == Zeros(10) + [255, 255];
    assert p[8..18] == p[8..20][..10] && p[18] == p[8..20][10] && p[19] == p[8..20][11];
    forall i | 44 <= i < 60 ensures p[i] == 0 {
      assert p[i] == Zeros(16)[i - 44];
    }
  }

  /** What is taken for a mapping, and what every other packet is refused for. */
  lemma PcpAcceptsExactly(p: Packet, nonce: Packet, port: int, isPublic: Packet -> bool)
    ensures var r := ParsePcp(p, nonce, port, isPublic);
            && (r.Ok? <==> |p| >= 60 && p[0] == 2 && p[1] == 129 && p[2] == 0 && p[24..36] == nonce && p[36] == 17
                           && U16(p, 40) == port && U16(p, 42) != 0
                           && p[44..54] == Zeros(10) && p[54] == 255 && p[55] == 255 && isPublic(p[56..60]))
            && (r.Ok? ==> r.value == External(p[56..60], U16(p, 42), U32(p, 4)))
            && (|p| >= 60 && p[0] == 2 && p[1] == 129 && p[2] != 0 ==> r == Err(Refused(p[2])))
  {
    if |p| >= 60 {
      var x := p[44..56];
      assert x == MAPPED_PREFIX <==> p[44..54] == Zeros(10) && p[54] == 255 && p[55] == 255 by {
        assert x[..10] == p[44..54] && x[10] == p[54] && x[11] == p[55];
        assert x == x[..10] + [x[10], x[11]] && MAPPED_PREFIX == Zeros(10) + [255, 255];
      }
    }
  }

  /** The answer to a request parses back to what the gateway assigned. */
  lemma PcpRoundTrip(local: Packet, port: int, wanted: int, nonce: Packet,
                     epoch: int, lifetime: int, external: int, address: Packet, isPublic: Packet -> bool)
    requires |local| == 4 && |nonce| == 12 && Encodable(port, wanted)
    requires |address| == 4 && 0 <= epoch < 0x1_0000_0000 && Encodable(external, lifetime)
    ensures var answer := PcpSuccess(PcpRequest(local, port, wanted, nonce), epoch, lifetime, external, address);
            ParsePcp(answer, nonce, port, isPublic)
            == if isPublic(address) && external != 0 then Ok(External(address, external, lifetime)) else Err(NotPublic)
  {
    PcpRequestFields(local, port, wanted, nonce);
    PcpSuccessFields(PcpRequest(local, port, wanted, nonce), epoch, lifetime, external, address);
  }

  /** The answer to another request, by nonce or by internal port, is never taken for ours. */
  lemma PcpRejectsOtherAnswers(local: Packet, port: int, wanted: int, nonce: Packet, ourNonce: Packet, ourPort: int,
                               epoch: int, lifetime: int, external: int, address: Packet, isPublic: Packet -> bool)
    requires |local| == 4 && |nonce| == 12 && Encodable(port, wanted)
    requires |address| == 4 && 0 <= epoch < 0x1_0000_0000 && Encodable(external, lifetime)
    requires nonce != ourNonce || port != ourPort
    ensures var answer := PcpSuccess(PcpRequest(local, port, wanted, nonce), epoch, lifetime, external, address);
            ParsePcp(answer, ourNonce, ourPort, isPublic) == Err(Mismatch)
  {
    PcpRequestFields(local, port, wanted, nonce);
    PcpSuccessFields(PcpRequest(local, port, wanted, nonce), epoch, lifetime, external, address);
  }

  /** Changing the protocol byte of any packet to something other than UDP makes it unacceptable. */
  lemma PcpRejectsOtherProtocols(p: Packet, protocol: Byte, nonce: Packet, port: int, isPublic: Packet -> bool)
    requires |p| >= 60 && protocol != IPPROTO_UDP
    ensures ParsePcp(p[36 := protocol], nonce, port, isPublic).Err?
  {
  }

  // ---------------------------------------------------------------- NAT-PMP

  function NatPmpRequest(port: int, lifetime: int): (p: Packet)
    requires Encodable(port, lifetime)
    ensures |p| == 12
  {
    [0, 1, 0, 0] + Pack16(port) + Pack16(port) + Pack32(lifetime)
  }

  /** A gateway reads the request by section 3.3 of RFC 6886: version 0, opcode 1, zeros, the port twice, the lifetime. */
  lemma NatPmpRequestFields(port: int, lifetime: int)
    requires Encodable(port, lifetime)
    ensures var p := NatPmpRequest(port, lifetime);
            && p[0] == 0 && p[1] == 1 && p[2] == 0 && p[3] == 0
            && U16(p, 4) == port && U16(p, 6) == port && U32(p, 8) == lifetime
  {
    var p := NatPmpRequest(port, lifetime);
    assert p[4..6] == Pack16(port) && p[6..8] == Pack16(port) && p[8..12] == Pack32(lifetime);
    assert U16(p, 4) == U16(p[4..6], 0) && U16(p, 6) == U16(p[6..8], 0) && U32(p, 8) == U32(p[8..12], 0);
  }

  /** External port and lifetime. */
  function ParseNatPmp(p: Packet, port: int): Result<(int, int)> {
    if |p| < 16 || p[0] != 0 || p[1] != 129 then Err(Malformed)
    else if U16(p, 2) != 0 then Err(Refused(U16(p, 2)))
    else if U16(p, 8) != port || U16(p, 10) == 0 then Err(Mismatch)
    else Ok((U16(p, 10), U32(p, 12)))
  }

  /** A response as section 3.3 of RFC 6886 builds it from a request. */
  function NatPmpResponse(request: Packet, code: int, epoch: int, external: int, lifetime: int): (p: Packet)
    requires |request| == 12 && 0 <= code < 0x1_0000 && 0 <= epoch < 0x1_0000_0000 && Encodable(external, lifetime)
    requires request[1] < 128
    ensures |p| == 16
  {
    [0, request[1] + 128] + Pack16(code) + Pack32(epoch) + request[4..6] + Pack16(external) + Pack32(lifetime)
  }

  /**
   * The answer to a request for `port`, read by someone who asked for `ourPort`: the assigned port and
   * lifetime when it is our answer and a success, an error in every other case.
   */
  lemma NatPmpRoundTrip(port: int, wanted: int, ourPort: int, code: int, epoch: int,
                                           external: int, lifetime: int)
    requires Encodable(port, wanted) && Encodable(external, lifetime)
    requires 0 <= code < 0x1_0000 && 0 <= epoch < 0x1_0000_0000
    ensures var answer := NatPmpResponse(NatPmpRequest(port, wanted), code, epoch, external, lifetime);
            ParseNatPmp(answer, ourPort)
            == if code != 0 then Err(Refused(code))
               else if port != ourPort || external == 0 then Err(Mismatch)
               else Ok((external, lifetime))
  {
  }
}
