/** The queue callback and the receive loop. */
module NfQueue {
  import opened Common
  import opened PacketCodec
  import opened PayloadRing
  import opened RawSend

  datatype Header = Header(id: nat, ethertype: nat)

  /** A queued packet as the library presents it; interface index 0 stands for none. */
  datatype Message = Message(header: Option<Header>, payload: Option<Bytes>, inIf: nat, outIf: nat)

  function KindOf(m: Message): Kind {
    if m.outIf != 0 then Outgoing else Host
  }

  function IfaceOf(m: Message): int {
    if m.outIf != 0 then m.outIf else m.inIf
  }

  /** A message without a header cannot be answered; one without data or interface is let go. */
  function DecideMessage(s: Settings, m: Message, known: Option<byte>): Decision
    requires m.header.Some?
  {
    if m.payload.None? || (m.outIf == 0 && m.inIf == 0) then Refuse
    else Decide(s, KindOf(m), m.header.value.ethertype, m.payload.value, known)
  }

  /** A packet that has an outgoing interface, a forwarded one with both included, is treated as
      outgoing: its decoys leave by that interface with its own endpoints. One that only arrived has
      them sent back by the interface it came in on. Without either interface, or without data, none
      are sent. */
  lemma {:induction false} InterfacesDecide(s: Settings, m: Message, known: Option<byte>)
    requires m.header.Some?
    ensures m.payload.None? || (m.inIf == 0 && m.outIf == 0) ==> DecideMessage(s, m, known).Refuse?
    ensures DecideMessage(s, m, known).Decoys? ==>
      var dec := DecideMessage(s, m, known);
      var parsed := ParseFor(s, m.header.value.ethertype, m.payload.value);
      && parsed.Some?
      && var original := Read(m.payload.value, parsed.value);
      var d := dec.template;
      if m.outIf != 0
      then dec.snat && IfaceOf(m) == m.outIf && s.flag0
           && d == Datagram(original.source, original.dest, d.ttl, original.sport, original.dport, [])
      else !dec.snat && m.inIf != 0 && IfaceOf(m) == m.inIf && s.flag1
           && d == Datagram(original.dest, original.source, d.ttl, original.dport, original.sport, [])
  {
    hide Parse4, Parse6, PortsPass, FarEnough, DecoyTtl;
  }

  class Queue {
    const sender: RawSender

    constructor (r: RawSender)
      ensures sender == r
    {
      sender := r;
    }

    method SetVerdict(id: nat, replacement: Option<Bytes>)
      modifies sender`wire
      ensures sender.wire == old(sender.wire) + [Accepted(id, replacement)]
    {
      sender.wire := sender.wire + [Accepted(id, replacement)];
    }

    /** Whatever happens, a packet with a header gets exactly one verdict, an unmodified accept, and
        it comes after all of the packet's decoys. */
    method Callback(s: Settings, m: Message, attempts: seq<Attempt>) returns (answered: bool)
      requires sender.ring.Valid() && sender.peers.Valid() && |attempts| == s.repeat
      requires forall n | n in sender.ring.nodes :: |n.payload| < BUFFLEN
      modifies sender, sender.ring
      ensures sender.ring.Valid() && sender.ring.nodes == old(sender.ring.nodes)
      ensures answered <==> m.header.Some?
      ensures !answered ==> sender.wire == old(sender.wire) && sender.ring.served == old(sender.ring.served)
      ensures answered ==>
        var known := if m.payload.None? then None else sender.Known(s, m.header.value.ethertype, m.payload.value);
        var dec, verdict := DecideMessage(s, m, known), [Accepted(m.header.value.id, None)];
        if dec.Decoys? then
          var d := dec.template.(payload := sender.ring.nodes[Turn(|sender.ring.nodes|, old(sender.ring.served))].payload);
          var bound := old(sender.BoundTo(d)) == IfaceOf(m);
          && sender.ring.served == old(sender.ring.served) + 1
          && sender.wire == old(sender.wire)
                          + Emitted(IfaceOf(m), dec.snat, d, Completed(attempts, dec.snat, bound)) + verdict
        else sender.wire == old(sender.wire) + verdict && sender.ring.served == old(sender.ring.served)
    {
      hide Decide, Completed, Emitted, Ring.Valid;
      if m.header.None? { return false; }
      answered := true;
      var id := m.header.value.id;
      if m.payload.None? {
        SetVerdict(id, None);
        return;
      }
      var kind, iface;
      if m.outIf != 0 {
        kind, iface := Outgoing, m.outIf;
      } else if m.inIf != 0 {
        kind, iface := Host, m.inIf;
      } else {
        SetVerdict(id, None);
        return;
      }
      var ok, modified := sender.Handle(s, kind, iface, m.header.value.ethertype, m.payload.value, attempts);
      SetVerdict(id, if ok && modified then m.payload else None);
    }
  }

  // ------------------------------------------------------------------- the receive loop

  /** One pass of the loop: a receive error that is retried, one that is fatal, or a datagram whose
      handling succeeds or fails. After the last pass the exit flag is set. */
  datatype Pass = Retried | Fatal | Handled(ok: bool)

  const MAX_ERRORS := 20

  predicate IsError(p: Pass) {
    p.Retried? || p == Handled(false)
  }

  /** The MAX_ERRORS passes before `k` are all errors. */
  predicate TooMany(passes: seq<Pass>, k: nat) {
    MAX_ERRORS <= k <= |passes| && forall i | k - MAX_ERRORS <= i < k :: IsError(passes[i])
  }

  /** Where the loop gives up, if it does: at a fatal error, or when it is about to start a pass
      after twenty errors in a row. */
  predicate GivesUpAt(passes: seq<Pass>, k: nat) {
    k < |passes| && (passes[k].Fatal? || TooMany(passes, k))
  }

  /** Twenty errors in a row are too many for one more pass; nineteen are not, nor are any number with a
      success among the last twenty. */
  lemma TwentyInARow(passes: seq<Pass>, k: nat)
    requires k < |passes|
    ensures GivesUpAt(passes, k) <==>
      passes[k] == Fatal || (k >= 20 && forall i | k - 20 <= i < k :: passes[i] == Retried || passes[i] == Handled(false))
    ensures k < 20 && passes[k] != Fatal ==> !GivesUpAt(passes, k)
    ensures (exists i :: 0 <= i < k && k - 20 <= i && passes[i] == Handled(true)) && passes[k] != Fatal ==> !GivesUpAt(passes, k)
  {
  }

  /** Succeeds exactly when no pass gives up; an isolated error, or nineteen, is forgiven. */
  method Loop(passes: seq<Pass>) returns (ok: bool)
    ensures ok <==> forall k | 0 <= k < |passes| :: !GivesUpAt(passes, k)
  {
    var errors := 0;
    var i := 0;
    while i < |passes|
      invariant 0 <= i <= |passes| && 0 <= errors <= i && errors <= MAX_ERRORS
      invariant forall j | i - errors <= j < i :: IsError(passes[j])
      invariant errors < i && errors < MAX_ERRORS ==> passes[i - errors - 1] == Handled(true)
      invariant forall k | 0 <= k < i :: !GivesUpAt(passes, k)
    {
      if errors >= MAX_ERRORS {
        assert GivesUpAt(passes, i);
        return false;
      }
      assert !TooMany(passes, i) by {
        if errors < i { assert !IsError(passes[i - errors - 1]); }
      }
      match passes[i] {
        case Fatal =>
          assert GivesUpAt(passes, i);
          return false;
        case Retried => errors := errors + 1;
        case Handled(handled) => errors := if handled then 0 else errors + 1;
      }
      i := i + 1;
    }
    ok := true;
  }
}
