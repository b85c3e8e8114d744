/** From the configuration page to the packet: what the layers guarantee together. */
module EndToEnd {
  import opened Common
  import opened Numerals
  import opened PortMap
  import opened Options
  import opened FakeSipConfig
  import Firewall
  import FirewallMeaning
  import FirewallRules
  import NftRules
  import BackEnd
  import Invite
  import PacketCodec
  import PayloadRing
  import RawSend
  import SipUri

  /** The firewall parameters main works with. */
  function FirewallOf(c: Context): Firewall.Config
    requires Sound(c)
  {
    Firewall.Config('a' in c.flags, c.ifaces, c.n.mark as bv32, c.n.mask as bv32, c.n.queue)
  }

  /** The packet-handling parameters main works with. */
  function SettingsOf(c: Context): RawSend.Settings
    requires Sound(c)
  {
    RawSend.Settings('4' in c.flags, '6' in c.flags, '0' in c.flags, '1' in c.flags, 'g' in c.flags, c.n.ttl as byte, c.n.pct,
                     c.n.repeat, c.white, c.black)
  }

  /** For every argument list main accepts, no packet with the socket mark is queued by the installed
      rules of either back end, for either family, at either hook; unrelated iptables rules keep
      their own say. */
  lemma {:induction false} AcceptedNeverFeedsBack(argv: seq<string>, max: nat, c: Context, f: Firewall.Family, t: Firewall.Table,
                                                  hook: Firewall.Hook, p: Firewall.Packet, d: nat)
    requires Accept(argv, max) == Accepted(c) && Firewall.Clean(t) && FirewallMeaning.BuiltInsUncalled(t) && d > 1
    requires c.n.mark <= U32_MAX && p.mark == c.n.mark as bv32
    ensures Sound(c)
    ensures var fw := FirewallOf(c);
      && !Firewall.Eval(f, Firewall.NftTable(f, fw), Firewall.NftTable(f, fw)[Firewall.OwnChain(hook)], p, d).Queued?
      && var after := Firewall.Installed(f, fw, t);
      && (Firewall.Eval(f, after, after[Firewall.BaseChain(hook)], p, d).Queued?
          ==> Firewall.Eval(f, t, t[Firewall.BaseChain(hook)], p, d).Queued?)
  {
    AcceptedIsSound(argv, max);
    SocketMark(c);
    MarkInsideMask(c);
    hide *;
    FirewallMeaning.GuardedPacketsEscape(f, FirewallOf(c), t, hook, p, d);
  }

  lemma SocketMark(c: Context)
    requires Sound(c)
    ensures c.n.mark <= U32_MAX && FirewallOf(c).mark == c.n.mark as bv32
  {
    hide MarkFits;
  }

  lemma MarkInsideMask(c: Context)
    requires Sound(c)
    ensures Firewall.MaskEquals(FirewallOf(c).mark, FirewallOf(c).mask, FirewallOf(c).mark)
  {
  }

  lemma {:induction false} RunKeepsNamesShort(c: Context, ds: seq<Delivered>, max: nat)
    requires Run(c, ds, max).Some? && forall i | 0 <= i < |c.ifaces| :: |c.ifaces[i]| <= NAME_MAX
    ensures forall i | 0 <= i < |Run(c, ds, max).value.ifaces| :: |Run(c, ds, max).value.ifaces[i]| <= NAME_MAX
    decreases |ds|
  {
    hide PortsOk, PortsSet, NumberOk, NumberSet, Number, Numeric;
    if ds != [] { RunKeepsNamesShort(Step(c, ds[0], max).value, ds[1..], max); }
  }

  /** For every argument list main accepts, no interface name is too long for either back end, so
      rule setup can only fail when a command fails to run. */
  lemma {:induction false} AcceptedNamesNeverStopSetup(argv: seq<string>, max: nat, f: Firewall.Family,
                                                       faults: seq<FirewallRules.Fault>)
    requires Accept(argv, max).Accepted?
    requires FirewallRules.FineUpTo(faults, |faults|)
    ensures Sound(Accept(argv, max).c)
    ensures BackEnd.Completes(f, true, FirewallOf(Accept(argv, max).c), faults)
    ensures BackEnd.Completes(f, false, FirewallOf(Accept(argv, max).c), faults)
  {
    AcceptedIsSound(argv, max);
    RunKeepsNamesShort(START, Getopt(argv), max);
    var fw := FirewallOf(Accept(argv, max).c);
    assert forall i | 0 <= i < |fw.ifaces| :: |fw.ifaces[i]| < FirewallRules.IFNAMSIZ;
    assert fw.queue <= U32_MAX;
    hide Accept, Run, Sound;
    NftRules.AcceptedNamesFit(f, fw);
    NftRules.RulesetAlwaysFits(f, fw);
  }

  /** Every accepted argument list meets the bounds that packet handling relies on. */
  lemma AcceptedIsSane(argv: seq<string>, max: nat)
    requires Accept(argv, max).Accepted?
    ensures Sound(Accept(argv, max).c) && RawSend.Sane(SettingsOf(Accept(argv, max).c))
  {
    AcceptedIsSound(argv, max);
    hide Accept;
  }

  lemma MeantIsSound(c: Config, w: World, max: nat)
    requires ValidConfig(c, w) && max >= PORT_MAX
    ensures Sound(Meant(c))
  {
    ValidatedIsAccepted(c, w, max);
    AcceptedIsSound(Words(OptionList(c)), max);
    hide Accept, Sound, Words, OptionList, ValidConfig, Meant;
  }

  /** The configured direction keeps its router-facing meaning through the script's swap of -0 and -1
      and the program's own swap of the two flags. */
  lemma {:induction false} DirectionIsKept(c: Config, w: World)
    requires ValidConfig(c, w)
    ensures Sound(Meant(c))
    ensures RawSend.DirectionEnabled(SettingsOf(Meant(c)), RawSend.Outgoing) <==> c.direction == "outbound" || c.direction == "both"
    ensures RawSend.DirectionEnabled(SettingsOf(Meant(c)), RawSend.Host) <==> c.direction == "inbound" || c.direction == "both"
  {
    DirectionFlagsMeant(c);
    MeantIsSound(c, w, U32_MAX);
    hide Sound, ValidConfig, FlagsMeant, Distinct, Number32, Decimal, SpecMeaning, Tokens;
  }

  lemma DirectionFlagsMeant(c: Config)
    requires ValidChoices(c)
    ensures '0' in FlagsMeant(c) <==> c.direction == "outbound" || c.direction == "both"
    ensures '1' in FlagsMeant(c) <==> c.direction == "inbound" || c.direction == "both"
  {
    assert "inbound" != "outbound" && "inbound" != "both" && "outbound" != "both";
  }

  /** Some item of the list is this port, or a range that holds it. */
  predicate Names(ports: string, p: int) {
    exists item :: item in Tokens(ports) && Meaning(item).first <= p <= Meaning(item).last
  }

  /** The configured port filter lets exactly the packets through that its decimal items name. */
  lemma {:induction false} PortFilterIsKept(c: Config, w: World, sport: nat, dport: nat)
    requires ValidConfig(c, w) && sport < 65536 && dport < 65536
    ensures Sound(Meant(c))
    ensures var s := SettingsOf(Meant(c));
      var listed := Names(c.ports, sport) || Names(c.ports, dport);
      (s.white.None? || sport in s.white.value || dport in s.white.value)
      && (s.black.None? || (sport !in s.black.value && dport !in s.black.value))
      <==> (c.portMode == "include" ==> listed) && (c.portMode == "exclude" ==> !listed)
  {
    MeantIsSound(c, w, U32_MAX);
    MeantPortsExactly(Tokens(c.ports), sport);
    MeantPortsExactly(Tokens(c.ports), dport);
    hide Sound, ValidConfig, FlagsMeant, Distinct, Number32, Decimal, SpecMeaning, Tokens, Meaning;
  }

  lemma FlagsAre(c: Config)
    ensures '4' in FlagsMeant(c) <==> c.family != "ipv6"
    ensures '6' in FlagsMeant(c) <==> c.family != "ipv4"
    ensures '0' in FlagsMeant(c) <==> c.direction != "inbound"
    ensures '1' in FlagsMeant(c) <==> c.direction != "outbound"
    ensures 'g' in FlagsMeant(c) <==> !c.hop
    ensures 'a' !in FlagsMeant(c)
  {
  }

  lemma SettingsMeant(c: Config, w: World)
    requires ValidConfig(c, w)
    ensures Sound(Meant(c))
    ensures var s := SettingsOf(Meant(c));
      && (s.v4 <==> c.family != "ipv6") && (s.v6 <==> c.family != "ipv4")
      && (s.flag0 <==> c.direction != "inbound") && (s.flag1 <==> c.direction != "outbound")
      && (s.noHopEstimate <==> !c.hop) && s.ttl as int == Decimal(c.ttl)
  {
    MeantIsSound(c, w, U32_MAX);
    FlagsAre(c);
    hide Sound, ValidConfig, FlagsMeant, Distinct, Number32, Decimal, SpecMeaning, Tokens;
  }

  /** From the configuration page to the packet: a validated configuration has decoys sent for exactly
      the UDP packets of its families and directions that its port items let through and whose peer,
      where hops are estimated, is farther away than its TTL. Every other packet goes its way alone. */
  lemma {:induction false} DecoysExactly(c: Config, w: World, kind: RawSend.Kind, ethertype: nat, pkt: Bytes, known: Option<byte>)
    requires ValidConfig(c, w)
    ensures Sound(Meant(c))
    ensures var parsed := if ethertype == 0x0800 && c.family != "ipv6" then PacketCodec.Parse4(pkt)
                          else if ethertype == 0x86DD && c.family != "ipv4" then PacketCodec.Parse6(pkt) else None;
      var dec := RawSend.Decide(SettingsOf(Meant(c)), kind, ethertype, pkt, known);
      && (dec.Refuse? <==> parsed.None?)
      && (parsed.Some? ==>
            var original := PacketCodec.Read(pkt, parsed.value);
            var observed := if kind.Host? then original.ttl else if known.Some? then known.value else 0;
            var listed := Names(c.ports, original.sport) || Names(c.ports, original.dport);
            dec.Decoys? <==>
              && (c.portMode == "include" ==> listed) && (c.portMode == "exclude" ==> !listed)
              && ((kind == RawSend.Host && c.direction != "outbound") || (kind == RawSend.Outgoing && c.direction != "inbound"))
              && (c.hop ==> RawSend.HopEstimate(observed) > Decimal(c.ttl)))
  {
    SettingsMeant(c, w);
    var s := SettingsOf(Meant(c));
    RawSend.DecidesExactly(s, kind, ethertype, pkt, known);
    var parsed := RawSend.ParseFor(s, ethertype, pkt);
    if parsed.Some? {
      var original := PacketCodec.Read(pkt, parsed.value);
      PortFilterIsKept(c, w, original.sport, original.dport);
    }
    hide RawSend.Decide, RawSend.HopEstimate, PacketCodec.Parse4, PacketCodec.Parse6, PacketCodec.Read, Names, Meant, SettingsOf, Sound,
         ValidConfig, Decimal;
  }

  lemma FirewallMeant(c: Config, w: World)
    requires ValidConfig(c, w)
    ensures Sound(Meant(c))
    ensures var fw := FirewallOf(Meant(c));
      !fw.all && fw.queue == Decimal(c.queue) && forall name :: name in fw.ifaces <==> name != "" && name in c.interfaces
  {
    MeantIsSound(c, w, U32_MAX);
    FlagsAre(c);
    hide ValidConfig, Sound, FlagsMeant, Number32, Decimal, SpecMeaning, Tokens;
  }

  /** The packets that reach the program in the first place: a validated configuration's nft rules queue
      exactly the early UDP on its devices, from or to a public address, without the socket mark. */
  lemma {:induction false} QueuedForConfiguration(c: Config, w: World, f: Firewall.Family, hook: Firewall.Hook, p: Firewall.Packet,
                                                  mark: bv32, bits: bv32, d: nat)
    requires ValidConfig(c, w) && d > 0
    requires Sound(Meant(c)) && mark == FirewallOf(Meant(c)).mark && bits == p.mark & FirewallOf(Meant(c)).mask
    ensures var nft := Firewall.NftTable(f, FirewallOf(Meant(c)));
      var v := Firewall.Eval(f, nft, nft[Firewall.OwnChain(hook)], p, d);
      var device := if hook.Prerouting? then p.inIf else p.outIf;
      var early := p.protocol == Firewall.Udp && p.seen.Some? && 1 <= p.seen.value <= 5;
      var public := !Firewall.Excluded(f, if hook.Prerouting? then p.src else p.dst);
      v == Firewall.Queued(Decimal(c.queue)) <==> early && device != "" && device in c.interfaces && public && bits != mark
  {
    FirewallMeant(c, w);
    var fw := FirewallOf(Meant(c));
    FirewallMeaning.QueuedExactly(f, fw, hook, p, bits, d);
    hide *;
  }

  /** A text payload as main hands it to the ring. */
  function InviteInput(given: Option<string>, r: Invite.Random): PayloadRing.Input
    requires |r.ul| == 5 && (Invite.Build(given, r).Some? ==> Invite.Ascii(Invite.Build(given, r).value))
  {
    var text := Invite.Build(given, r);
    PayloadRing.Input.Invite(if text.None? then None else Some(Invite.Octets(text.value)))
  }

  function ViewOf(d: PacketCodec.Datagram, bytes: Bytes): (v: Option<PacketCodec.View>)
    ensures v.Some? ==> v.value.udpAt + PacketCodec.UDP_HEADER + v.value.payloadLen == |bytes|
  {
    if d.dest.Inet? then PacketCodec.Parse4(bytes) else PacketCodec.Parse6(bytes)
  }

  lemma SmallPayloadIsCarried(d: PacketCodec.Datagram, z: PacketCodec.Noise)
    requires (PacketCodec.Both4(d) || PacketCodec.Both6(d)) && |d.payload| <= 1179
    ensures RawSend.Sendable(d) && |RawSend.Encode(d, z)| <= 1227
    ensures var view := ViewOf(d, RawSend.Encode(d, z)); view.Some? && PacketCodec.Read(RawSend.Encode(d, z), view.value) == d
  {
    if PacketCodec.Both4(d) {
      PacketCodec.RoundTrip4(d, z);
      PacketCodec.Lengths4(d, z);
    } else {
      PacketCodec.RoundTrip6(d, z);
      PacketCodec.Lengths6(d, z);
    }
    hide PacketCodec.Encode4, PacketCodec.Encode6, PacketCodec.Parse4, PacketCodec.Parse6, PacketCodec.Read;
  }

  lemma InviteFillsNode(given: Option<string>, r: Invite.Random)
    requires Invite.Drawn(r) && (given.Some? ==> SipUri.ValidSipUri(given.value))
    ensures Invite.Build(given, r).Some? && Invite.Ascii(Invite.Build(given, r).value)
    ensures var payload := PayloadRing.Fill(InviteInput(given, r));
      payload.Some? && |payload.value| <= 1179 && Invite.Chars(payload.value) == Invite.Build(given, r).value
  {
    Invite.BuiltIsAscii(given, r);
    hide Invite.Build, Invite.Ascii, Invite.Octets, Invite.Chars, SipUri.ValidSipUri;
  }

  /** From the URI field to the wire: for every URI the shell accepts, and for none, the built message
      fills a node of the ring, every decoy that carries it fits the send buffer and an Ethernet frame
      (1500 bytes), and what arrives reads back as the INVITE for that URI with a truthful Content-Length. */
  lemma {:induction false} InviteOnTheWire(given: Option<string>, r: Invite.Random, d: PacketCodec.Datagram, z: PacketCodec.Noise)
    requires Invite.Drawn(r) && (given.Some? ==> SipUri.ValidSipUri(given.value))
    requires PacketCodec.Both4(d) || PacketCodec.Both6(d)
    ensures Invite.Build(given, r).Some? && Invite.Ascii(Invite.Build(given, r).value)
    ensures PayloadRing.Fill(InviteInput(given, r)).Some?
    ensures var decoy := d.(payload := PayloadRing.Fill(InviteInput(given, r)).value);
      var bytes := RawSend.Encode(decoy, z);
      && RawSend.Sendable(decoy) && |bytes| <= 1227
      && var view := ViewOf(d, bytes);
      && view.Some? && PacketCodec.Read(bytes, view.value) == decoy
      && var uri := if given.Some? then given.value else Invite.RandomUri(r);
      && |uri| >= 4 && Invite.Head(uri, r)[0] == "INVITE " + uri + " SIP/2.0"
      && Invite.Head(uri, r)[8] == "Content-Length: " + Format(|Invite.Sdp(r)|, 10)
      && Invite.SplitMessage(Invite.Chars(PacketCodec.Read(bytes, view.value).payload)) == Some((Invite.Head(uri, r), Invite.Sdp(r)))
  {
    InviteFillsNode(given, r);
    Invite.EveryInviteIsWellFormed(given, r);
    SmallPayloadIsCarried(d.(payload := PayloadRing.Fill(InviteInput(given, r)).value), z);
    hide *;
  }
}
