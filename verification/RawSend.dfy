/** What happens to one queued packet: parsing, filters, hop estimate, decoys, verdict. */
module RawSend {
  import opened Common
  import opened PacketCodec
  import opened PayloadRing
  import SrcInfo

  datatype Settings = Settings(v4: bool, v6: bool, flag0: bool, flag1: bool, noHopEstimate: bool, ttl: byte, pct: nat, repeat: nat,
                               white: Option<set<int>>, black: Option<set<int>>)

  const ETHERTYPE_IP := 0x0800
  const ETHERTYPE_IPV6 := 0x86DD

  /** Bounds the option parser enforces. */
  predicate Sane(s: Settings) {
    1 <= s.ttl && s.pct < 100 && 1 <= s.repeat <= 10
  }

  datatype Kind = Host | Outgoing | OtherKind

  // ------------------------------------------------------------------- hop arithmetic

  function HopEstimate(ttl: byte): nat {
    if ttl <= 64 then 64 - ttl else if ttl <= 128 then 128 - ttl else 255 - ttl
  }

  /** The value of the uint8_t that calc_snd_ttl returns. */
  function SendTtl(s: Settings, hops: nat): byte {
    if s.pct == 0 then s.ttl
    else
      var raised := hops * s.pct / 100;
      if raised > s.ttl then raised % 256 else s.ttl
  }

  /** The estimate is the distance to the nearest usual initial value not below the observed one. */
  lemma HopEstimateIsLeast(ttl: byte, initial: nat)
    requires initial == 64 || initial == 128 || initial == 255
    ensures ttl <= initial ==> HopEstimate(ttl) <= initial - ttl
    ensures HopEstimate(ttl) == 64 - ttl || HopEstimate(ttl) == 128 - ttl || HopEstimate(ttl) == 255 - ttl
    ensures HopEstimate(ttl) <= 126
  {
  }

  /** A decoy that is sent outlives the configured number of hops and dies before the peer; the
      narrowing to eight bits loses nothing. */
  lemma {:induction false} DecoyDiesOnTheWay(s: Settings, observed: byte)
    requires Sane(s) && HopEstimate(observed) > s.ttl
    ensures s.ttl <= SendTtl(s, HopEstimate(observed)) < HopEstimate(observed)
    ensures var raised := HopEstimate(observed) * s.pct / 100;
      s.pct > 0 ==> SendTtl(s, HopEstimate(observed)) as int == (if raised > s.ttl then raised else s.ttl as int)
  {
    var hops := HopEstimate(observed);
    assert hops * s.pct <= hops * 99 by { MulLe(hops, s.pct, 99); }
  }

  lemma MulLe(a: nat, b: nat, c: nat)
    requires b <= c
    ensures a * b <= a * c
  {
  }

  // ------------------------------------------------------------------- the decision

  datatype Decision =
    | Refuse                                    // an error: the caller accepts the packet
    | LetGo                                     // accept, no decoys
    | Decoys(template: Datagram, snat: bool)    // accept after sending decoys

  function ParseFor(s: Settings, ethertype: nat, pkt: Bytes): Option<View> {
    if s.v4 && ethertype == ETHERTYPE_IP then Parse4(pkt)
    else if s.v6 && ethertype == ETHERTYPE_IPV6 then Parse6(pkt)
    else None
  }

  /** Both port lists let the packet through. */
  predicate PortsPass(s: Settings, sport: port, dport: port) {
    && (s.white.Some? ==> sport in s.white.value || dport in s.white.value)
    && (s.black.Some? ==> sport !in s.black.value && dport !in s.black.value)
  }

  /** Host packets are governed by -1 and outgoing ones by -0. */
  predicate DirectionEnabled(s: Settings, kind: Kind) {
    (kind.Host? && s.flag1) || (kind.Outgoing? && s.flag0)
  }

  /** The hop count a decoy is computed from; outgoing packets use what is known of the peer. */
  function ObservedTtl(kind: Kind, arrived: byte, known: Option<byte>): byte {
    if kind.Host? then arrived else if known.Some? then known.value else 0
  }

  predicate FarEnough(s: Settings, observed: byte) {
    s.noHopEstimate || HopEstimate(observed) > s.ttl
  }

  function DecoyTtl(s: Settings, observed: byte): byte {
    if s.noHopEstimate then s.ttl else SendTtl(s, HopEstimate(observed))
  }

  /** Towards the sender of a host packet, along the path of an outgoing one. */
  function Template(s: Settings, kind: Kind, v: View, sport: port, dport: port, known: Option<byte>): Datagram {
    var ttl := DecoyTtl(s, ObservedTtl(kind, v.ttl, known));
    if kind.Host? then Datagram(v.dest, v.source, ttl, dport, sport, [])
    else Datagram(v.source, v.dest, ttl, sport, dport, [])
  }

  /** What the direction flags and the hop test make of a packet the port lists let through. */
  function Answer(s: Settings, kind: Kind, v: View, sport: port, dport: port, known: Option<byte>): Decision {
    if DirectionEnabled(s, kind) && FarEnough(s, ObservedTtl(kind, v.ttl, known))
    then Decoys(Template(s, kind, v, sport, dport, known), kind.Outgoing?)
    else LetGo
  }

  /** The closed form of the decision. */
  function Decide(s: Settings, kind: Kind, ethertype: nat, pkt: Bytes, known: Option<byte>): Decision {
    var parsed := ParseFor(s, ethertype, pkt);
    if parsed.None? then Refuse
    else
      var v := parsed.value;
      var sport, dport := U16(pkt, v.udpAt), U16(pkt, v.udpAt + 2);
      if PortsPass(s, sport, dport) then Answer(s, kind, v, sport, dport, known) else LetGo
  }

  predicate SameFamily(v: View) {
    WellFormed(v.source) && WellFormed(v.dest) && (v.source.Inet? <==> v.dest.Inet?)
  }

  // ------------------------------------------------------------------- sending

  datatype SendResult = SendOk | Eperm | SendFailed

  /** What the network does with one attempt, and the random parts of its packet. */
  datatype Attempt = Attempt(bindOk: bool, result: SendResult, noise: Noise)

  /** What leaves the program: a packet handed to the network (interface, way of sending, bytes), or
      the verdict on a queued packet (with replacement bytes when it was rewritten). */
  datatype Emission = Emission(iface: int, snat: bool, bytes: Bytes) | Accepted(id: nat, replacement: Option<Bytes>)

  function Encode(d: Datagram, z: Noise): Bytes {
    if d.dest.Inet? then Encode4(d, z) else Encode6(d, z)
  }

  predicate Sendable(d: Datagram) {
    (Both4(d) || Both6(d)) && IP6_HEADER + UDP_HEADER + |d.payload| < SEND_BUFFER
  }

  /** The attempt ends the decoy loop with an error. */
  predicate Breaks(a: Attempt, snat: bool, bound: bool) {
    if snat then (!bound && !a.bindOk) || a.result.SendFailed? else !a.result.SendOk?
  }

  /** The attempts before the first that ends the loop; `bound` says whether the socket already has
      the interface. */
  function Completed(attempts: seq<Attempt>, snat: bool, bound: bool): (r: seq<Attempt>)
    ensures |r| <= |attempts|
  {
    if attempts == [] || Breaks(attempts[0], snat, bound) then [] else [attempts[0]] + Completed(attempts[1..], snat, true)
  }

  /** Nothing breaks exactly when every attempt completes. */
  lemma {:induction false} CompletedAll(attempts: seq<Attempt>, snat: bool, bound: bool)
    ensures Completed(attempts, snat, bound) <= attempts
    ensures Completed(attempts, snat, bound) == attempts
       <==> forall i | 0 <= i < |attempts| :: !Breaks(attempts[i], snat, i > 0 || bound)
  {
    if attempts != [] {
      var rest := attempts[1..];
      CompletedAll(rest, snat, true);
      assert forall i | 0 <= i < |rest| :: rest[i] == attempts[i + 1];
      if Completed(attempts, snat, bound) == attempts && !Breaks(attempts[0], snat, bound) {
        assert Completed(rest, snat, true) == ([attempts[0]] + Completed(rest, snat, true))[1..];
      }
    }
  }

  function Emitted(iface: int, snat: bool, d: Datagram, attempts: seq<Attempt>): seq<Emission> {
    if attempts == [] then []
    else (if attempts[0].result.SendOk? then [Emission(iface, snat, Encode(d, attempts[0].noise))] else [])
         + Emitted(iface, snat, d, attempts[1..])
  }

  lemma {:induction false} EmittedSnoc(iface: int, snat: bool, d: Datagram, attempts: seq<Attempt>, a: Attempt)
    ensures Emitted(iface, snat, d, attempts + [a])
         == Emitted(iface, snat, d, attempts) + (if a.result.SendOk? then [Emission(iface, snat, Encode(d, a.noise))] else [])
  {
    if attempts == [] {
      assert [a][1..] == [];
    } else {
      assert (attempts + [a])[1..] == attempts[1..] + [a];
      EmittedSnoc(iface, snat, d, attempts[1..], a);
    }
  }

  /** When every send succeeds, every attempt is one decoy with the same fields and payload. */
  lemma {:induction false} AllEmitted(iface: int, snat: bool, d: Datagram, attempts: seq<Attempt>)
    requires forall i | 0 <= i < |attempts| :: attempts[i].result.SendOk?
    ensures |Emitted(iface, snat, d, attempts)| == |attempts|
    ensures forall i | 0 <= i < |attempts| ::
              Emitted(iface, snat, d, attempts)[i] == Emission(iface, snat, Encode(d, attempts[i].noise))
  {
    if attempts != [] { AllEmitted(iface, snat, d, attempts[1..]); }
  }

  /** When the network takes every packet, exactly one decoy per attempt goes out, all with the same
      fields and payload. */
  lemma {:induction false} RepeatDecoys(iface: int, snat: bool, d: Datagram, attempts: seq<Attempt>, bound: bool)
    requires forall i | 0 <= i < |attempts| :: attempts[i].bindOk && attempts[i].result.SendOk?
    ensures var sent := Emitted(iface, snat, d, Completed(attempts, snat, bound));
      && |sent| == |attempts|
      && forall i | 0 <= i < |attempts| :: sent[i] == Emission(iface, snat, Encode(d, attempts[i].noise))
  {
    CompletedAll(attempts, snat, bound);
    AllEmitted(iface, snat, d, attempts);
    hide Encode, Completed, Emitted;
  }

  /** Where the loop stops: at the first attempt that fails for good. Towards the sender any send error
      is final; along the path of an outgoing packet one that the kernel forbids is passed over, and
      binding to the interface counts until it is bound. What goes out is one packet per success. */
  lemma {:induction false} StopsAtFirstError(iface: int, snat: bool, d: Datagram, attempts: seq<Attempt>, bound: bool)
    ensures var done := Completed(attempts, snat, bound);
      var n := |done|;
      && done == attempts[..n]
      && (forall i | 0 <= i < n ::
            if snat then !attempts[i].result.SendFailed? && (attempts[i].bindOk || bound || i > 0) else attempts[i].result.SendOk?)
      && (n < |attempts| ==>
            if snat then attempts[n].result.SendFailed? || !(attempts[n].bindOk || bound || n > 0) else !attempts[n].result.SendOk?)
      && |Emitted(iface, snat, d, done)| == |set i | 0 <= i < n && done[i].result.SendOk?|
  {
    var done := Completed(attempts, snat, bound);
    EmittedCount(iface, snat, d, done);
    hide Emitted;
    if attempts != [] && !Breaks(attempts[0], snat, bound) {
      var rest := attempts[1..];
      StopsAtFirstError(iface, snat, d, rest, true);
      var more := Completed(rest, snat, true);
      assert done == [attempts[0]] + more;
      assert forall i | 0 < i < |attempts| :: attempts[i] == rest[i - 1];
      assert attempts[..|done|] == [attempts[0]] + rest[..|more|];
    }
  }

  lemma {:induction false} EmittedCount(iface: int, snat: bool, d: Datagram, attempts: seq<Attempt>)
    ensures |Emitted(iface, snat, d, attempts)| == |set i | 0 <= i < |attempts| && attempts[i].result.SendOk?|
  {
    if attempts != [] {
      var init, last := attempts[..|attempts| - 1], attempts[|attempts| - 1];
      EmittedCount(iface, snat, d, init);
      EmittedSnoc(iface, snat, d, init, last);
      assert attempts == init + [last];
      hide *;
      SuccessesSnoc(init, last);
    }
  }

  lemma SuccessesSnoc(attempts: seq<Attempt>, a: Attempt)
    ensures |set i | 0 <= i < |attempts + [a]| && (attempts + [a])[i].result.SendOk?|
         == |set i | 0 <= i < |attempts| && attempts[i].result.SendOk?| + if a.result.SendOk? then 1 else 0
  {
    var before := set i | 0 <= i < |attempts| && attempts[i].result.SendOk?;
    var after := set i | 0 <= i < |attempts + [a]| && (attempts + [a])[i].result.SendOk?;
    assert after == before + (if a.result.SendOk? then {|attempts|} else {});
  }

  /** The first `i` attempts have completed; the rest decide how many more do. */
  predicate Reached(attempts: seq<Attempt>, snat: bool, bound: bool, i: nat)
    requires i <= |attempts|
  {
    Completed(attempts, snat, bound) == attempts[..i] + Completed(attempts[i..], snat, i > 0 || bound)
  }

  lemma ReachedStep(attempts: seq<Attempt>, snat: bool, bound: bool, i: nat)
    requires i < |attempts| && Reached(attempts, snat, bound, i)
    ensures Breaks(attempts[i], snat, i > 0 || bound) ==> Completed(attempts, snat, bound) == attempts[..i]
    ensures !Breaks(attempts[i], snat, i > 0 || bound) ==> Reached(attempts, snat, bound, i + 1)
  {
    hide Breaks, Completed;
    var rest := attempts[i..];
    CompletedOnce(rest, snat, i > 0 || bound);
    assert rest[0] == attempts[i] && rest[1..] == attempts[i + 1..];
    if Breaks(attempts[i], snat, i > 0 || bound) {
      assert attempts[..i] + [] == attempts[..i];
    } else {
      var more := Completed(attempts[i + 1..], snat, true);
      assert attempts[..i] + ([attempts[i]] + more) == attempts[..i + 1] + more;
    }
  }

  lemma CompletedOnce(attempts: seq<Attempt>, snat: bool, bound: bool)
    requires attempts != []
    ensures Completed(attempts, snat, bound)
         == if Breaks(attempts[0], snat, bound) then [] else [attempts[0]] + Completed(attempts[1..], snat, true)
  {
  }

  lemma ReachedEnds(attempts: seq<Attempt>, snat: bool, bound: bool)
    ensures Reached(attempts, snat, bound, 0)
    ensures Reached(attempts, snat, bound, |attempts|) ==> Completed(attempts, snat, bound) == attempts
  {
    assert attempts[0..] == attempts && attempts[..|attempts|] == attempts && attempts[|attempts|..] == [];
  }

  /** Whether the socket is bound matters for SNAT only. */
  lemma UnboundMatters(a: Attempt, snat: bool, x: bool, y: bool)
    requires snat ==> x == y
    ensures Breaks(a, snat, x) == Breaks(a, snat, y)
  {
  }

  /** The first `i` attempts have completed and the wire, `first` before them, shows what they sent. */
  predicate SentSoFar(first: seq<Emission>, wire: seq<Emission>, iface: int, snat: bool, d: Datagram, attempts: seq<Attempt>,
                      bound: bool, i: nat)
  {
    i <= |attempts| && wire == first + Emitted(iface, snat, d, attempts[..i]) && Reached(attempts, snat, bound, i)
  }

  lemma SentNothing(first: seq<Emission>, iface: int, snat: bool, d: Datagram, attempts: seq<Attempt>, bound: bool)
    ensures SentSoFar(first, first, iface, snat, d, attempts, bound, 0)
  {
    ReachedEnds(attempts, snat, bound);
    assert Emitted(iface, snat, d, attempts[..0]) == [];
  }

  /** One more attempt either breaks the loop or counts. */
  lemma SentNext(first: seq<Emission>, wire: seq<Emission>, iface: int, snat: bool, d: Datagram, attempts: seq<Attempt>,
                 bound: bool, i: nat)
    requires SentSoFar(first, wire, iface, snat, d, attempts, bound, i) && i < |attempts|
    ensures var a, done := attempts[i], Completed(attempts, snat, bound);
      if Breaks(a, snat, i > 0 || bound) then |done| < |attempts| && wire == first + Emitted(iface, snat, d, done)
      else SentSoFar(first, if a.result.SendOk? then wire + [Emission(iface, snat, Encode(d, a.noise))] else wire,
                     iface, snat, d, attempts, bound, i + 1)
  {
    ReachedStep(attempts, snat, bound, i);
    EmittedSnoc(iface, snat, d, attempts[..i], attempts[i]);
    assert attempts[..i + 1] == attempts[..i] + [attempts[i]];
    hide Reached, Breaks, Completed, Emitted, Encode;
  }

  lemma SentAll(first: seq<Emission>, wire: seq<Emission>, iface: int, snat: bool, d: Datagram, attempts: seq<Attempt>, bound: bool)
    requires SentSoFar(first, wire, iface, snat, d, attempts, bound, |attempts|)
    ensures var done := Completed(attempts, snat, bound); |done| == |attempts| && wire == first + Emitted(iface, snat, d, done)
  {
    ReachedEnds(attempts, snat, bound);
    assert attempts[..|attempts|] == attempts;
  }

  class RawSender {
    const ring: Ring
    const peers: SrcInfo.Ring
    var wire: seq<Emission>
    var sock4if: int
    var sock6if: int

    constructor (r: Ring, p: SrcInfo.Ring)
      ensures ring == r && peers == p && wire == [] && sock4if == -1 && sock6if == -1
    {
      ring, peers, wire, sock4if, sock6if := r, p, [], -1, -1;
    }

    /** The TTL recorded for a peer, as the search of the ring of peers finds it. */
    ghost function PeerTtl(addr: Address): Option<byte>
      requires peers.Valid()
      reads peers, peers.slots
    {
      var f := SrcInfo.Found(peers.slots[..], peers.word, peers.end, Some(addr), 0);
      if f.None? then None else Some(peers.slots[f.value].ttl)
    }

    /** The TTL recorded for the peer a packet goes to. */
    ghost function Known(s: Settings, ethertype: nat, pkt: Bytes): Option<byte>
      requires peers.Valid()
      reads peers, peers.slots
    {
      var parsed := ParseFor(s, ethertype, pkt);
      if parsed.None? then None else PeerTtl(parsed.value.dest)
    }

    function BoundTo(d: Datagram): int
      reads this
    {
      if d.dest.Inet? then sock4if else sock6if
    }

    /** Sends through the family's raw socket, binding it to the interface when it is bound elsewhere. */
    method SendtoSnat(iface: int, d: Datagram, bytes: Bytes, a: Attempt) returns (ok: bool)
      modifies this
      ensures ok <==> !Breaks(a, true, old(BoundTo(d)) == iface)
      ensures BoundTo(d) == if a.bindOk || old(BoundTo(d)) == iface then iface else old(BoundTo(d))
      ensures wire == if ok && a.result.SendOk? then old(wire) + [Emission(iface, true, bytes)] else old(wire)
    {
      if d.dest.Inet? {
        if iface != sock4if {
          if !a.bindOk { return false; }
          sock4if := iface;
        }
      } else {
        if iface != sock6if {
          if !a.bindOk { return false; }
          sock6if := iface;
        }
      }
      if a.result.SendOk? { wire := wire + [Emission(iface, true, bytes)]; }
      ok := !a.result.SendFailed?;
    }

    /** Builds one decoy in a fresh buffer and sends it. */
    method SendPayload(iface: int, d: Datagram, snat: bool, a: Attempt) returns (ok: bool)
      requires Sendable(d)
      modifies this
      ensures ok <==> !Breaks(a, snat, old(BoundTo(d)) == iface)
      ensures ok && snat ==> BoundTo(d) == iface
      ensures wire == if ok && a.result.SendOk? then old(wire) + [Emission(iface, snat, Encode(d, a.noise))] else old(wire)
    {
      var buffer := new byte[SEND_BUFFER];
      var len: int;
      if d.dest.Inet? {
        len := Make4(buffer, d, a.noise);
        assert len >= 0 && |Encode4(d, a.noise)| == len && buffer[..len] == Encode4(d, a.noise);
      } else {
        len := Make6(buffer, d, a.noise);
        assert len >= 0 && |Encode6(d, a.noise)| == len && buffer[..len] == Encode6(d, a.noise);
      }
      var bytes := buffer[..len];
      if snat {
        ok := SendtoSnat(iface, d, bytes, a);
      } else {
        ok := a.result.SendOk?;
        if ok { wire := wire + [Emission(iface, false, bytes)]; }
      }
    }

    /** The decoy loop. */
    method SendDecoys(iface: int, d: Datagram, snat: bool, repeat: nat, attempts: seq<Attempt>) returns (ok: bool)
      requires Sendable(d) && |attempts| == repeat
      modifies this
      ensures var done := Completed(attempts, snat, old(BoundTo(d)) == iface);
        (ok <==> |done| == repeat) && wire == old(wire) + Emitted(iface, snat, d, done)
    {
      hide *;
      ghost var bound := BoundTo(d) == iface;
      SentNothing(wire, iface, snat, d, attempts, bound);
      var i := 0;
      while i < repeat
        invariant 0 <= i <= repeat
        invariant SentSoFar(old(wire), wire, iface, snat, d, attempts, bound, i)
        invariant i > 0 && snat ==> BoundTo(d) == iface
        invariant i == 0 ==> BoundTo(d) == old(BoundTo(d))
      {
        SentNext(old(wire), wire, iface, snat, d, attempts, bound, i);
        UnboundMatters(attempts[i], snat, i > 0 || bound, BoundTo(d) == iface);
        ok := SendPayload(iface, d, snat, attempts[i]);
        if !ok { return; }
        i := i + 1;
      }
      SentAll(old(wire), wire, iface, snat, d, attempts, bound);
      ok := true;
    }

    /** The state carries a decision out. */
    twostate predicate CarriedOut(dec: Decision, s: Settings, iface: int, attempts: seq<Attempt>, ok: bool)
      requires old(ring.Valid()) && ring.Valid() && ring.nodes == old(ring.nodes) && |attempts| == s.repeat
      reads this, ring, ring.nodes
    {
      match dec
      case Refuse => !ok && wire == old(wire) && ring.served == old(ring.served)
      case LetGo => ok && wire == old(wire) && ring.served == old(ring.served)
      case Decoys(template, snat) =>
        var d := template.(payload := ring.nodes[Turn(|ring.nodes|, old(ring.served))].payload);
        var done := Completed(attempts, snat, old(BoundTo(d)) == iface);
        && ring.served == old(ring.served) + 1
        && (ok <==> |done| == s.repeat)
        && wire == old(wire) + Emitted(iface, snat, d, done)
    }

    /** A packet addressed to or routed through this host: decoys go back to its sender. */
    method HandleHost(s: Settings, iface: int, v: View, sport: port, dport: port, attempts: seq<Attempt>) returns (ok: bool)
      requires ring.Valid() && |attempts| == s.repeat && SameFamily(v)
      requires forall n | n in ring.nodes :: |n.payload| < BUFFLEN
      modifies this, ring
      ensures ring.Valid() && ring.nodes == old(ring.nodes)
      ensures CarriedOut(Answer(s, Host, v, sport, dport, None), s, iface, attempts, ok)
    {
      hide Completed, Emitted, Ring.Valid;
      if !s.flag1 { return true; }
      var sndTtl := s.ttl;
      if !s.noHopEstimate {
        var hop := HopEstimate(v.ttl);
        if hop <= s.ttl { return true; }
        sndTtl := SendTtl(s, hop);
      }
      var payload := ring.Get();
      ok := SendDecoys(iface, Datagram(v.dest, v.source, sndTtl, dport, sport, payload), false, s.repeat, attempts);
    }

    /** A packet leaving: decoys run ahead of it. */
    method HandleOutgoing(s: Settings, iface: int, v: View, sport: port, dport: port, attempts: seq<Attempt>) returns (ok: bool)
      requires ring.Valid() && peers.Valid() && |attempts| == s.repeat && SameFamily(v)
      requires forall n | n in ring.nodes :: |n.payload| < BUFFLEN
      modifies this, ring
      ensures ring.Valid() && ring.nodes == old(ring.nodes)
      ensures CarriedOut(Answer(s, Outgoing, v, sport, dport, PeerTtl(v.dest)), s, iface, attempts, ok)
    {
      hide Completed, Emitted, Ring.Valid, SrcInfo.Ring.Valid;
      var info := peers.Get(Some(v.dest));
      var srcTtl := if info.Some? then info.value.ttl else 0;
      if !s.flag0 { return true; }
      var sndTtl := s.ttl;
      if !s.noHopEstimate {
        var hop := HopEstimate(srcTtl);
        if hop <= s.ttl { return true; }
        sndTtl := SendTtl(s, hop);
      }
      var payload := ring.Get();
      ok := SendDecoys(iface, Datagram(v.source, v.dest, sndTtl, sport, dport, payload), true, s.repeat, attempts);
    }

    /** Everything that is decided about one packet. `modified` is the flag the caller is given. */
    method Handle(s: Settings, kind: Kind, iface: int, ethertype: nat, pkt: Bytes, attempts: seq<Attempt>)
      returns (ok: bool, modified: bool)
      requires ring.Valid() && peers.Valid() && |attempts| == s.repeat
      requires forall n | n in ring.nodes :: |n.payload| < BUFFLEN
      modifies this, ring
      ensures !modified
      ensures ring.Valid() && ring.nodes == old(ring.nodes)
      ensures CarriedOut(Decide(s, kind, ethertype, pkt, Known(s, ethertype, pkt)), s, iface, attempts, ok)
    {
      hide Completed, Emitted, Answer, Ring.Valid, SrcInfo.Ring.Valid, PeerTtl;
      modified := false;
      var parsed: Option<View>;
      if s.v4 && ethertype == ETHERTYPE_IP {
        parsed := Parse4(pkt);
      } else if s.v6 && ethertype == ETHERTYPE_IPV6 {
        parsed := Parse6(pkt);
      } else {
        return false, false;
      }
      if parsed.None? { return false, false; }
      var v := parsed.value;
      var sport, dport := U16(pkt, v.udpAt), U16(pkt, v.udpAt + 2);
      if s.white.Some? {
        if !(sport in s.white.value || dport in s.white.value) { return true, false; }
      }
      if s.black.Some? {
        if sport in s.black.value || dport in s.black.value { return true, false; }
      }
      if kind.Host? {
        HostIgnoresPeers(s, v, sport, dport, PeerTtl(v.dest));
        ok := HandleHost(s, iface, v, sport, dport, attempts);
      } else if kind.Outgoing? {
        ok := HandleOutgoing(s, iface, v, sport, dport, attempts);
      } else {
        ok := true;
        OtherKindsPass(s, v, sport, dport, PeerTtl(v.dest));
      }
    }
  }

  lemma HostIgnoresPeers(s: Settings, v: View, sport: port, dport: port, known: Option<byte>)
    ensures Answer(s, Host, v, sport, dport, known) == Answer(s, Host, v, sport, dport, None)
  {
  }

  lemma OtherKindsPass(s: Settings, v: View, sport: port, dport: port, known: Option<byte>)
    ensures Answer(s, OtherKind, v, sport, dport, known) == LetGo
  {
  }

  /** Read back from the wire, a decoy carries the payload untouched, answers a host packet with the
      endpoints exchanged, repeats an outgoing one's endpoints, and never reaches the far end. */
  lemma {:induction false} DecoyOnTheWire(s: Settings, kind: Kind, ethertype: nat, pkt: Bytes, known: Option<byte>,
                                          payload: Bytes, z: Noise)
    requires Sane(s) && Decide(s, kind, ethertype, pkt, known).Decoys?
    ensures var dec := Decide(s, kind, ethertype, pkt, known);
      var bytes := Encode(dec.template.(payload := payload), z);
      var original := Read(pkt, ParseFor(s, ethertype, pkt).value);
      var decoyView := ParseFor(s, ethertype, bytes);
      && dec.snat == kind.Outgoing?
      && decoyView.Some?
      && var decoy := Read(bytes, decoyView.value);
      && decoy.payload == payload
      && (kind.Host? ==> decoy.source == original.dest && decoy.dest == original.source
                         && decoy.sport == original.dport && decoy.dport == original.sport)
      && (kind.Outgoing? ==> decoy.source == original.source && decoy.dest == original.dest
                             && decoy.sport == original.sport && decoy.dport == original.dport)
      && s.ttl <= decoy.ttl
      && (!s.noHopEstimate ==> decoy.ttl < HopEstimate(ObservedTtl(kind, original.ttl, known)))
  {
    var dec := Decide(s, kind, ethertype, pkt, known);
    var d := dec.template.(payload := payload);
    var v := ParseFor(s, ethertype, pkt).value;
    var observed := ObservedTtl(kind, v.ttl, known);
    if !s.noHopEstimate { DecoyDiesOnTheWay(s, observed); }
    hide HopEstimate, SendTtl, Encode4, Encode6, PortsPass;
    if s.v4 && ethertype == ETHERTYPE_IP {
      RoundTrip4(d, z);
    } else {
      RoundTrip6(d, z);
    }
  }

  /** Which packets decoys are sent for. A packet is refused exactly if its family is off or it is not
      a UDP packet of that family. For any other, decoys are sent exactly if a whitelist names one of
      its ports and a blacklist neither, its direction is enabled, and the peer is farther away than
      the configured TTL wherever hops are estimated. */
  lemma {:induction false} DecidesExactly(s: Settings, kind: Kind, ethertype: nat, pkt: Bytes, known: Option<byte>)
    ensures var parsed := if ethertype == 0x0800 && s.v4 then Parse4(pkt)
                          else if ethertype == 0x86DD && s.v6 then Parse6(pkt) else None;
      var dec := Decide(s, kind, ethertype, pkt, known);
      && (dec.Refuse? <==> parsed.None?)
      && (parsed.Some? ==>
            var original := Read(pkt, parsed.value);
            var observed := if kind.Host? then original.ttl else if known.Some? then known.value else 0;
            dec.Decoys? <==>
              && (s.white.None? || original.sport in s.white.value || original.dport in s.white.value)
              && (s.black.None? || (original.sport !in s.black.value && original.dport !in s.black.value))
              && ((kind == Host && s.flag1) || (kind == Outgoing && s.flag0))
              && (s.noHopEstimate || HopEstimate(observed) > s.ttl))
  {
    hide Parse4, Parse6, HopEstimate, SendTtl;
  }

  /** The hop count of a decoy: the configured one, or with hop estimation the configured share of the
      estimated distance if that is more. */
  lemma {:induction false} DecoyTtlExactly(s: Settings, kind: Kind, ethertype: nat, pkt: Bytes, known: Option<byte>)
    requires Sane(s) && Decide(s, kind, ethertype, pkt, known).Decoys?
    ensures var original := Read(pkt, ParseFor(s, ethertype, pkt).value);
      var observed := if kind.Host? then original.ttl else if known.Some? then known.value else 0;
      var raised := HopEstimate(observed) * s.pct / 100;
      Decide(s, kind, ethertype, pkt, known).template.ttl as int
        == if !s.noHopEstimate && raised > s.ttl then raised else s.ttl as int
  {
    var observed := ObservedTtl(kind, ParseFor(s, ethertype, pkt).value.ttl, known);
    if !s.noHopEstimate { DecoyDiesOnTheWay(s, observed); }
    hide HopEstimate, Parse4, Parse6;
  }

  /** The program never records a peer, so a search misses and every outgoing packet is taken to be
      64 hops from its destination. */
  lemma OutgoingEstimateIs64(s: Settings, slots: seq<SrcInfo.Slot>, word: nat, peer: Address, arrived: byte)
    requires 0 < |slots| <= word && SrcInfo.Represents(slots, 0, 0, [])
    ensures SrcInfo.Found(slots, word, 0, Some(peer), 0) == None
    ensures FarEnough(s, ObservedTtl(Outgoing, arrived, None)) <==> s.noHopEstimate || s.ttl < 64
  {
  }
}
