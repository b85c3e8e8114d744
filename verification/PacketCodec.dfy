/** Raw IPv4/IPv6 UDP packets, written into a buffer in place and read back.

    Layouts follow section 3.1 of RFC 791, section 3 of RFC 8200 and RFC 768. */
module PacketCodec {
  import opened Common

  const UDP := 17
  const IP4_HEADER := 20
  const IP6_HEADER := 40
  const UDP_HEADER := 8
  const SEND_BUFFER := 1600

  type port = p: int | 0 <= p < 65536

  datatype Address = Inet(octets: Bytes) | Inet6(octets: Bytes)

  predicate WellFormed(a: Address) {
    |a.octets| == if a.Inet? then 4 else 16
  }

  /** Values the program draws at random or leaves to the checksum library. */
  datatype Noise = Noise(id0: byte, id1: byte, ipSum0: byte, ipSum1: byte, udpSum0: byte, udpSum1: byte)

  datatype Datagram = Datagram(source: Address, dest: Address, ttl: byte, sport: port, dport: port, payload: Bytes)

  /** Two bytes, most significant first; larger numbers lose their high bits, as htons does. */
  function Be16(n: nat): (r: Bytes)
    ensures |r| == 2
  {
    [n / 256 % 256, n % 256]
  }

  function U16(s: Bytes, at: nat): port
    requires at + 2 <= |s|
  {
    s[at] as int * 256 + s[at + 1]
  }

  lemma Be16RoundTrip(n: nat)
    ensures U16(Be16(n), 0) == n % 65536
    ensures n < 65536 ==> U16(Be16(n), 0) == n
  {
    var q := n / 65536;
    assert n == 65536 * q + n % 65536;
    var m := n % 65536;
    assert n / 256 == 256 * q + m / 256;
    assert n % 256 == m % 256;
    assert (n / 256) % 256 == m / 256;
  }

  // ------------------------------------------------------------------- the bytes on the wire

  function Fixed4(d: Datagram, z: Noise): Bytes {
    [0x45, 0] + Be16(IP4_HEADER + UDP_HEADER + |d.payload|) + [z.id0, z.id1, 0x40, 0, d.ttl, UDP, z.ipSum0, z.ipSum1]
  }

  function Header4(d: Datagram, z: Noise): Bytes {
    Fixed4(d, z) + d.source.octets + d.dest.octets
  }

  function Header6(d: Datagram): Bytes {
    [0x60, 0, 0, 0] + Be16(UDP_HEADER + |d.payload|) + [UDP, d.ttl] + d.source.octets + d.dest.octets
  }

  function UdpHeader(d: Datagram, z: Noise): Bytes {
    Be16(d.sport) + Be16(d.dport) + Be16(UDP_HEADER + |d.payload|) + [z.udpSum0, z.udpSum1]
  }

  function Encode4(d: Datagram, z: Noise): Bytes {
    Header4(d, z) + UdpHeader(d, z) + d.payload
  }

  function Encode6(d: Datagram, z: Noise): Bytes {
    Header6(d) + UdpHeader(d, z) + d.payload
  }

  // ------------------------------------------------------------------- reading

  /** What the parser hands back: the addresses, the hop count, and where the UDP header is. */
  datatype View = View(source: Address, dest: Address, ttl: byte, udpAt: nat, payloadLen: nat)

  function Parse4(pkt: Bytes): (v: Option<View>)
    ensures v.Some? ==> v.value.udpAt + UDP_HEADER + v.value.payloadLen == |pkt|
    ensures v.Some? ==> WellFormed(v.value.source) && WellFormed(v.value.dest)
  {
    if |pkt| < IP4_HEADER then None
    else
      var ihl := pkt[0] % 16 * 4;
      if ihl < IP4_HEADER then None
      else if pkt[9] != UDP then None
      else if |pkt| < ihl + UDP_HEADER then None
      else Some(View(Inet(pkt[12..16]), Inet(pkt[16..20]), pkt[8], ihl, |pkt| - ihl - UDP_HEADER))
  }

  function Parse6(pkt: Bytes): (v: Option<View>)
    ensures v.Some? ==> v.value.udpAt + UDP_HEADER + v.value.payloadLen == |pkt|
    ensures v.Some? ==> WellFormed(v.value.source) && WellFormed(v.value.dest)
  {
    if |pkt| < IP6_HEADER then None
    else if pkt[6] != UDP then None
    else if |pkt| < IP6_HEADER + UDP_HEADER then None
    else Some(View(Inet6(pkt[8..24]), Inet6(pkt[24..40]), pkt[7], IP6_HEADER, |pkt| - IP6_HEADER - UDP_HEADER))
  }

  /** The datagram a caller reads through a view. */
  function Read(pkt: Bytes, v: View): Datagram
    requires v.udpAt + UDP_HEADER + v.payloadLen == |pkt|
  {
    Datagram(v.source, v.dest, v.ttl, U16(pkt, v.udpAt), U16(pkt, v.udpAt + 2), pkt[v.udpAt + UDP_HEADER..])
  }

  // ------------------------------------------------------------------- writing

  /** `bytes` stand at `at`. */
  ghost predicate Holds(b: array<byte>, at: nat, bytes: Bytes)
    reads b
  {
    at + |bytes| <= b.Length && forall k | at <= k < at + |bytes| :: b[k] == bytes[k - at]
  }

  /** Everything outside [from, to) is as it was. */
  twostate predicate SameOutside(b: array<byte>, from: nat, to: nat)
    reads b
  {
    forall k | 0 <= k < b.Length && !(from <= k < to) :: b[k] == old(b[k])
  }

  method Copy(b: array<byte>, at: nat, bytes: Bytes)
    requires at + |bytes| <= b.Length
    modifies b
    ensures Holds(b, at, bytes) && SameOutside(b, at, at + |bytes|)
  {
    var i := 0;
    while i < |bytes|
      invariant 0 <= i <= |bytes|
      invariant forall k | 0 <= k < i :: b[at + k] == bytes[k]
      invariant forall k | 0 <= k < b.Length && !(at <= k < at + i) :: b[k] == old(b[k])
    {
      b[at + i] := bytes[i];
      i := i + 1;
    }
  }

  method Put16(b: array<byte>, at: nat, n: nat)
    requires at + 2 <= b.Length
    modifies b
    ensures b[at] == Be16(n)[0] && b[at + 1] == Be16(n)[1] && SameOutside(b, at, at + 2)
  {
    b[at] := n / 256 % 256;
    b[at + 1] := n % 256;
  }

  method WriteUdp(b: array<byte>, at: nat, d: Datagram, z: Noise)
    requires at + UDP_HEADER <= b.Length
    modifies b
    ensures Holds(b, at, UdpHeader(d, z)) && SameOutside(b, at, at + UDP_HEADER)
  {
    hide Be16;
    Put16(b, at, d.sport);
    Put16(b, at + 2, d.dport);
    Put16(b, at + 4, UDP_HEADER + |d.payload|);
    b[at + 6] := z.udpSum0;
    b[at + 7] := z.udpSum1;
  }

  lemma ThreePieces(b: array<byte>, i: nat, j: nat, n: nat, x: Bytes, y: Bytes, z: Bytes)
    requires i <= j <= n <= b.Length && |x| == i && |y| == j - i && |z| == n - j
    requires forall k | 0 <= k < i :: b[k] == x[k]
    requires forall k | i <= k < j :: b[k] == y[k - i]
    requires forall k | j <= k < n :: b[k] == z[k - j]
    ensures Holds(b, 0, x + y + z)
  {
    assert forall k | 0 <= k < n :: b[k] == (x + y + z)[k];
  }

  method WriteFixed4(b: array<byte>, d: Datagram, z: Noise)
    requires IP4_HEADER <= b.Length
    modifies b
    ensures Holds(b, 0, Fixed4(d, z)) && SameOutside(b, 0, 12)
  {
    hide Be16;
    b[0], b[1] := 0x45, 0;
    Put16(b, 2, IP4_HEADER + UDP_HEADER + |d.payload|);
    Copy(b, 4, [z.id0, z.id1, 0x40, 0]);
    Copy(b, 8, [d.ttl, UDP, z.ipSum0, z.ipSum1]);
  }

  method WriteHeader4(b: array<byte>, d: Datagram, z: Noise)
    requires IP4_HEADER <= b.Length && |d.source.octets| == 4 && |d.dest.octets| == 4
    modifies b
    ensures Holds(b, 0, Header4(d, z)) && SameOutside(b, 0, IP4_HEADER)
  {
    WriteFixed4(b, d, z);
    hide Fixed4;
    assert |Fixed4(d, z)| == 12;
    Copy(b, 12, d.source.octets);
    Copy(b, 16, d.dest.octets);
    ThreePieces(b, 12, 16, IP4_HEADER, Fixed4(d, z), d.source.octets, d.dest.octets);
  }

  method WriteHeader6(b: array<byte>, d: Datagram)
    requires IP6_HEADER <= b.Length && |d.source.octets| == 16 && |d.dest.octets| == 16
    modifies b
    ensures Holds(b, 0, Header6(d)) && SameOutside(b, 0, IP6_HEADER)
  {
    hide Be16;
    b[0], b[1], b[2], b[3] := 0x60, 0, 0, 0;
    Put16(b, 4, UDP_HEADER + |d.payload|);
    b[6], b[7] := UDP, d.ttl;
    Copy(b, 8, d.source.octets);
    Copy(b, 24, d.dest.octets);
  }

  /** Header, UDP header and payload, in that order; -1 leaves the buffer alone. */
  method Make4(b: array<byte>, d: Datagram, z: Noise) returns (len: int)
    requires WellFormed(d.source) && WellFormed(d.dest)
    modifies b
    ensures len == if d.source.Inet? && d.dest.Inet? && IP4_HEADER + UDP_HEADER + |d.payload| < b.Length
                   then IP4_HEADER + UDP_HEADER + |d.payload| else -1
    ensures len >= 0 ==> Holds(b, 0, Encode4(d, z)) && SameOutside(b, 0, len)
    ensures len < 0 ==> b[..] == old(b[..])
  {
    if !d.source.Inet? || !d.dest.Inet? { return -1; }
    var n := IP4_HEADER + UDP_HEADER + |d.payload|;
    if b.Length < n + 1 { return -1; }
    assert |Header4(d, z)| == IP4_HEADER && |UdpHeader(d, z)| == UDP_HEADER;
    hide Header4, UdpHeader;
    WriteHeader4(b, d, z);
    WriteUdp(b, IP4_HEADER, d, z);
    Copy(b, IP4_HEADER + UDP_HEADER, d.payload);
    ThreePieces(b, IP4_HEADER, IP4_HEADER + UDP_HEADER, n, Header4(d, z), UdpHeader(d, z), d.payload);
    len := n;
  }

  method Make6(b: array<byte>, d: Datagram, z: Noise) returns (len: int)
    requires WellFormed(d.source) && WellFormed(d.dest)
    modifies b
    ensures len == if d.source.Inet6? && d.dest.Inet6? && IP6_HEADER + UDP_HEADER + |d.payload| < b.Length
                   then IP6_HEADER + UDP_HEADER + |d.payload| else -1
    ensures len >= 0 ==> Holds(b, 0, Encode6(d, z)) && SameOutside(b, 0, len)
    ensures len < 0 ==> b[..] == old(b[..])
  {
    if !d.source.Inet6? || !d.dest.Inet6? { return -1; }
    var n := IP6_HEADER + UDP_HEADER + |d.payload|;
    if b.Length < n + 1 { return -1; }
    assert |Header6(d)| == IP6_HEADER && |UdpHeader(d, z)| == UDP_HEADER;
    hide Header6, UdpHeader;
    WriteHeader6(b, d);
    WriteUdp(b, IP6_HEADER, d, z);
    Copy(b, IP6_HEADER + UDP_HEADER, d.payload);
    ThreePieces(b, IP6_HEADER, IP6_HEADER + UDP_HEADER, n, Header6(d), UdpHeader(d, z), d.payload);
    len := n;
  }

  // ------------------------------------------------------------------- round trips

  predicate Both4(d: Datagram) {
    d.source.Inet? && d.dest.Inet? && WellFormed(d.source) && WellFormed(d.dest)
  }

  predicate Both6(d: Datagram) {
    d.source.Inet6? && d.dest.Inet6? && WellFormed(d.source) && WellFormed(d.dest)
  }

  lemma UdpHeaderReads(pkt: Bytes, at: nat, d: Datagram, z: Noise)
    requires at + UDP_HEADER <= |pkt| && pkt[at..at + UDP_HEADER] == UdpHeader(d, z)
    ensures U16(pkt, at) == d.sport && U16(pkt, at + 2) == d.dport
    ensures U16(pkt, at + 4) == (UDP_HEADER + |d.payload|) % 65536
  {
    var u := UdpHeader(d, z);
    Be16RoundTrip(d.sport);
    Be16RoundTrip(d.dport);
    Be16RoundTrip(UDP_HEADER + |d.payload|);
    hide Be16;
    assert forall k | 0 <= k < UDP_HEADER :: pkt[at + k] == u[k];
  }

  /** Parsing a made IPv4 packet gives back every field of the datagram. */
  lemma {:induction false} RoundTrip4(d: Datagram, z: Noise)
    requires Both4(d)
    ensures Parse4(Encode4(d, z)) == Some(View(d.source, d.dest, d.ttl, IP4_HEADER, |d.payload|))
    ensures Read(Encode4(d, z), Parse4(Encode4(d, z)).value) == d
  {
    var pkt, h := Encode4(d, z), Header4(d, z);
    assert pkt[..20] == h && pkt[20..28] == UdpHeader(d, z) && pkt[28..] == d.payload;
    UdpHeaderReads(pkt, IP4_HEADER, d, z);
    hide UdpHeader, Be16, Encode4;
    assert pkt[0] == h[0] && pkt[8] == h[8] && pkt[9] == h[9];
    assert pkt[12..16] == pkt[..20][12..16] == d.source.octets;
    assert pkt[16..20] == pkt[..20][16..20] == d.dest.octets;
  }

  lemma {:induction false} RoundTrip6(d: Datagram, z: Noise)
    requires Both6(d)
    ensures Parse6(Encode6(d, z)) == Some(View(d.source, d.dest, d.ttl, IP6_HEADER, |d.payload|))
    ensures Read(Encode6(d, z), Parse6(Encode6(d, z)).value) == d
  {
    var pkt, h := Encode6(d, z), Header6(d);
    assert pkt[..40] == h && pkt[40..48] == UdpHeader(d, z) && pkt[48..] == d.payload;
    UdpHeaderReads(pkt, IP6_HEADER, d, z);
    hide UdpHeader, Be16, Encode6;
    assert pkt[6] == h[6] && pkt[7] == h[7];
    assert pkt[8..24] == pkt[..40][8..24] == d.source.octets;
    assert pkt[24..40] == pkt[..40][24..40] == d.dest.octets;
  }

  /** The total-length and UDP-length fields are exact up to 65535 and truncated beyond. */
  lemma {:induction false} Lengths4(d: Datagram, z: Noise)
    requires Both4(d)
    ensures var pkt := Encode4(d, z);
      && |pkt| == IP4_HEADER + UDP_HEADER + |d.payload|
      && U16(pkt, 2) == |pkt| % 65536 && (U16(pkt, 2) == |pkt| <==> |pkt| < 65536)
      && U16(pkt, 24) == (|pkt| - IP4_HEADER) % 65536 && (U16(pkt, 24) == |pkt| - IP4_HEADER <==> |pkt| < 65536 + IP4_HEADER)
  {
    var pkt, h := Encode4(d, z), Header4(d, z);
    assert pkt[..20] == h && pkt[20..28] == UdpHeader(d, z);
    UdpHeaderReads(pkt, IP4_HEADER, d, z);
    Be16RoundTrip(|pkt|);
    hide UdpHeader, Be16;
    assert pkt[2] == h[2] && pkt[3] == h[3];
  }

  lemma {:induction false} Lengths6(d: Datagram, z: Noise)
    requires Both6(d)
    ensures var pkt := Encode6(d, z);
      && |pkt| == IP6_HEADER + UDP_HEADER + |d.payload|
      && U16(pkt, 4) == U16(pkt, 44) == (|pkt| - IP6_HEADER) % 65536
      && (U16(pkt, 4) == |pkt| - IP6_HEADER <==> |pkt| < 65536 + IP6_HEADER)
  {
    var pkt, h := Encode6(d, z), Header6(d);
    assert pkt[..40] == h && pkt[40..48] == UdpHeader(d, z);
    UdpHeaderReads(pkt, IP6_HEADER, d, z);
    Be16RoundTrip(UDP_HEADER + |d.payload|);
    hide UdpHeader, Be16;
    assert pkt[4] == h[4] && pkt[5] == h[5];
  }

  // ------------------------------------------------------------------- the layouts

  /** Byte by byte, as in section 3.1 of RFC 791: version 4 and five header words, no fragmentation,
      protocol 17, the addresses in network order, then the ports, most significant byte first. */
  lemma {:induction false} Layout4(d: Datagram, z: Noise)
    requires Both4(d)
    ensures var pkt := Encode4(d, z);
      && |pkt| == 28 + |d.payload|
      && pkt[0] == 0x45 && pkt[1] == 0 && pkt[6] == 0x40 && pkt[7] == 0 && pkt[8] == d.ttl && pkt[9] == 17
      && pkt[12..16] == d.source.octets && pkt[16..20] == d.dest.octets
      && pkt[20] as int * 256 + pkt[21] == d.sport && pkt[22] as int * 256 + pkt[23] == d.dport
      && pkt[28..] == d.payload
  {
    var pkt, h := Encode4(d, z), Header4(d, z);
    assert pkt[..20] == h && pkt[20..28] == UdpHeader(d, z) && pkt[28..] == d.payload;
    UdpHeaderReads(pkt, IP4_HEADER, d, z);
    hide UdpHeader, Be16, Encode4;
    assert forall k | 0 <= k < 20 :: pkt[k] == h[k];
    assert pkt[12..16] == pkt[..20][12..16] == d.source.octets;
    assert pkt[16..20] == pkt[..20][16..20] == d.dest.octets;
  }

  /** Byte by byte, as in section 3 of RFC 8200: version 6, no class or flow label, next header 17. */
  lemma {:induction false} Layout6(d: Datagram, z: Noise)
    requires Both6(d)
    ensures var pkt := Encode6(d, z);
      && |pkt| == 48 + |d.payload|
      && pkt[0] == 0x60 && pkt[1] == pkt[2] == pkt[3] == 0 && pkt[6] == 17 && pkt[7] == d.ttl
      && pkt[8..24] == d.source.octets && pkt[24..40] == d.dest.octets
      && pkt[40] as int * 256 + pkt[41] == d.sport && pkt[42] as int * 256 + pkt[43] == d.dport
      && pkt[48..] == d.payload
  {
    var pkt, h := Encode6(d, z), Header6(d);
    assert pkt[..40] == h && pkt[40..48] == UdpHeader(d, z) && pkt[48..] == d.payload;
    UdpHeaderReads(pkt, IP6_HEADER, d, z);
    hide UdpHeader, Be16, Encode6;
    assert forall k | 0 <= k < 8 :: pkt[k] == h[k];
    assert pkt[8..24] == pkt[..40][8..24] == d.source.octets;
    assert pkt[24..40] == pkt[..40][24..40] == d.dest.octets;
  }

  /** An IPv4 packet is read behind a header of any length it can announce, options and all, and is
      refused exactly if the header is shorter than five words, is not followed by a whole UDP header
      or announces another protocol. */
  lemma {:induction false} Reads4(header: Bytes, udp: Bytes, payload: Bytes)
    requires |header| >= 20 && |header| == 4 * (header[0] as int % 16) && header[9] == 17 && |udp| == 8
    ensures var pkt := header + udp + payload;
      && Parse4(pkt).Some?
      && Read(pkt, Parse4(pkt).value) == Datagram(Inet(header[12..16]), Inet(header[16..20]), header[8],
                                                  udp[0] as int * 256 + udp[1], udp[2] as int * 256 + udp[3], payload)
  {
    var pkt := header + udp + payload;
    var n := |header|;
    assert pkt[0] == header[0] && pkt[8] == header[8] && pkt[9] == header[9];
    assert pkt[12..16] == header[12..16] && pkt[16..20] == header[16..20];
    assert pkt[n] == udp[0] && pkt[n + 1] == udp[1] && pkt[n + 2] == udp[2] && pkt[n + 3] == udp[3];
    assert pkt[n + 8..] == payload;
  }

  lemma Refuses4(pkt: Bytes)
    ensures Parse4(pkt).None? <==>
      |pkt| < 20 || pkt[0] % 16 < 5 || pkt[9] != 17 || |pkt| < 4 * (pkt[0] as int % 16) + 8
  {
  }

  /** An IPv6 packet is read right behind its fixed header and must announce UDP there. */
  lemma {:induction false} Reads6(header: Bytes, udp: Bytes, payload: Bytes)
    requires |header| == 40 && header[6] == 17 && |udp| == 8
    ensures var pkt := header + udp + payload;
      && Parse6(pkt).Some?
      && Read(pkt, Parse6(pkt).value) == Datagram(Inet6(header[8..24]), Inet6(header[24..40]), header[7],
                                                  udp[0] as int * 256 + udp[1], udp[2] as int * 256 + udp[3], payload)
  {
    var pkt := header + udp + payload;
    assert pkt[6] == header[6] && pkt[7] == header[7];
    assert pkt[8..24] == header[8..24] && pkt[24..40] == header[24..40];
    assert pkt[40] == udp[0] && pkt[41] == udp[1] && pkt[42] == udp[2] && pkt[43] == udp[3];
    assert pkt[48..] == payload;
  }

  lemma Refuses6(pkt: Bytes)
    ensures Parse6(pkt).None? <==> |pkt| < 48 || pkt[6] != 17
  {
  }
}
