/** The packet policy FakeSIP installs, as nft rules and as iptables rules.

    Both back ends are compiled to the same little rule language, whose evaluator
    knows ordered rules, jumps, returns and final verdicts; both are proved equal to
    one closed form that does not mention rules at all. */
module Firewall {
  import opened Common

  type Name = string

  datatype Family = V4 | V6
  datatype Hook = Prerouting | Postrouting

  datatype Protocol = Udp | Icmp(kind: nat) | Icmp6(kind: nat) | OtherProtocol

  datatype Packet = Packet(inIf: Name, outIf: Name, src: nat, dst: nat, protocol: Protocol, mark: bv32,
                           seen: Option<nat>)   // conntrack packets, None when untracked

  /** `base/len`. */
  datatype Prefix = Prefix(base: nat, len: nat)

  datatype Match =
    | InIf(name: Name)
    | OutIf(name: Name)
    | SrcIn(prefix: Prefix)
    | DstIn(prefix: Prefix)
    | SrcOutside(prefix: Prefix)
    | DstOutside(prefix: Prefix)
    | IcmpType(kind: nat)
    | Icmp6Type(kind: nat)
    | Marked(mask: bv32, value: bv32)
    | IsUdp
    | Seen(low: nat, high: nat)

  datatype Chain = PreChain | PostChain | SourceChain | DestChain | RuleChain | OtherChain(name: string)

  datatype Target = Jump(chain: Chain) | Drop | Accept | Return | Queue(num: nat)

  datatype Rule = Rule(matches: seq<Match>, target: Target)

  type Table = map<Chain, seq<Rule>>

  /** What traversal of a chain decides; `Through` hands the packet on. */
  datatype Verdict = Dropped | Accepted | Queued(num: nat) | Through

  datatype Config = Config(all: bool, ifaces: seq<Name>, mark: bv32, mask: bv32, queue: nat)

  // ------------------------------------------------------------- evaluation

  function Pow2(n: nat): nat {
    if n == 0 then 1 else 2 * Pow2(n - 1)
  }

  function Width(f: Family): nat {
    if f.V4? then 32 else 128
  }

  /** The leading `len` bits of the address are those of the prefix. */
  predicate InPrefix(f: Family, a: nat, p: Prefix)
    requires p.len <= Width(f)
  {
    PowPositive(Width(f) - p.len);
    a / Pow2(Width(f) - p.len) == p.base / Pow2(Width(f) - p.len)
  }

  lemma PowPositive(n: nat)
    ensures Pow2(n) > 0
  {
  }

  predicate Fits(f: Family, m: Match) {
    (m.SrcIn? || m.DstIn? || m.SrcOutside? || m.DstOutside?) ==> m.prefix.len <= Width(f)
  }

  predicate MaskEquals(mark: bv32, mask: bv32, value: bv32) {
    mark & mask == value
  }

  predicate Holds(f: Family, m: Match, p: Packet) {
    Fits(f, m) &&
    match m
    case InIf(name) => p.inIf == name
    case OutIf(name) => p.outIf == name
    case SrcIn(prefix) => InPrefix(f, p.src, prefix)
    case DstIn(prefix) => InPrefix(f, p.dst, prefix)
    case SrcOutside(prefix) => !InPrefix(f, p.src, prefix)
    case DstOutside(prefix) => !InPrefix(f, p.dst, prefix)
    case IcmpType(kind) => p.protocol == Icmp(kind)
    case Icmp6Type(kind) => p.protocol == Icmp6(kind)
    case Marked(mask, value) => MaskEquals(p.mark, mask, value)
    case IsUdp => p.protocol.Udp?
    case Seen(low, high) => p.seen.Some? && low <= p.seen.value <= high
  }

  predicate Matches(f: Family, r: Rule, p: Packet) {
    forall i | 0 <= i < |r.matches| :: Holds(f, r.matches[i], p)
  }

  /** Rules in order; `depth` bounds the jump stack. */
  function Eval(f: Family, t: Table, rules: seq<Rule>, p: Packet, depth: nat): Verdict
    decreases depth, |rules|
  {
    if rules == [] then Through
    else if !Matches(f, rules[0], p) then Eval(f, t, rules[1..], p, depth)
    else
      match rules[0].target
      case Drop => Dropped
      case Accept => Accepted
      case Queue(num) => Queued(num)
      case Return => Through
      case Jump(c) =>
        var v := if depth == 0 || c !in t then Through else Eval(f, t, t[c], p, depth - 1);
        if v.Through? then Eval(f, t, rules[1..], p, depth) else v
  }

  // ---------------------------------------------------------- the two policies

  const EXCLUDED_V4: seq<Prefix> := [
    Prefix(0x00000000, 8), Prefix(0x0A000000, 8), Prefix(0x64400000, 10), Prefix(0x7F000000, 8),
    Prefix(0xA9FE0000, 16), Prefix(0xAC100000, 12), Prefix(0xC0A80000, 16), Prefix(0xE0000000, 3)]

  const GLOBAL_UNICAST := Prefix(0x2000_0000_0000_0000_0000_0000_0000_0000, 3)

  function Returns(f: Family, source: bool): seq<Rule> {
    if f.V4? then seq(8, i requires 0 <= i < 8 => Rule([if source then SrcIn(EXCLUDED_V4[i]) else DstIn(EXCLUDED_V4[i])], Return))
    else [Rule([if source then SrcOutside(GLOBAL_UNICAST) else DstOutside(GLOBAL_UNICAST)], Return)]
  }

  /** nft's symbolic `time-exceeded`, and the numbers iptables is given. */
  function TimeExceeded(f: Family): Match {
    if f.V4? then IcmpType(11) else Icmp6Type(3)
  }

  function DropRule(f: Family, name: Option<Name>): Rule {
    Rule((if name.Some? then [InIf(name.value)] else []) + [TimeExceeded(f)], Drop)
  }

  function JumpRule(source: bool, name: Option<Name>): Rule {
    Rule(if name.None? then [] else if source then [InIf(name.value)] else [OutIf(name.value)], Jump(RuleChain))
  }

  /** The rules of the shared chain: marked packets return, early UDP is queued. */
  function QueueRules(c: Config): seq<Rule> {
    [Rule([Marked(c.mask, c.mark)], Return), Rule([IsUdp, Seen(1, 5)], Queue(c.queue))]
  }

  /** The interfaces the installation loop visits; `None` stands for all of them. */
  function Visited(c: Config): seq<Option<Name>> {
    if c.all then [None] else seq(|c.ifaces|, i requires 0 <= i < |c.ifaces| => Some(c.ifaces[i]))
  }

  /** Each pass of the loop inserts its drop rule on top... */
  function Drops(f: Family, names: seq<Option<Name>>): seq<Rule> {
    if names == [] then []
    else [DropRule(f, names[|names| - 1])] + Drops(f, names[..|names| - 1])
  }

  /** ...and appends its jump at the bottom. */
  function Jumps(source: bool, names: seq<Option<Name>>): seq<Rule> {
    if names == [] then []
    else Jumps(source, names[..|names| - 1]) + [JumpRule(source, names[|names| - 1])]
  }

  function SourceRules(f: Family, names: seq<Option<Name>>): seq<Rule> {
    Drops(f, names) + Returns(f, true) + Jumps(true, names)
  }

  function DestRules(f: Family, names: seq<Option<Name>>): seq<Rule> {
    Returns(f, false) + Jumps(false, names)
  }

  // ------------------------------------------------------------- what is installed

  /** The table nft ends up with; its two base chains are entered by the hooks themselves. */
  function NftTable(f: Family, c: Config): Table {
    map[SourceChain := SourceRules(f, Visited(c)), DestChain := DestRules(f, Visited(c)), RuleChain := QueueRules(c)]
  }

  function BaseChain(hook: Hook): Chain {
    if hook.Prerouting? then PreChain else PostChain
  }

  function OwnChain(hook: Hook): Chain {
    if hook.Prerouting? then SourceChain else DestChain
  }

  predicate Own(c: Chain) {
    c == SourceChain || c == DestChain || c == RuleChain
  }

  /** The mangle table before installation: built-in chains present, ours absent and unreferenced. */
  predicate Clean(t: Table) {
    && PreChain in t && PostChain in t
    && (forall k | k in t :: !Own(k) && NoOwnJump(t[k]))
  }

  predicate Calls(rules: seq<Rule>, c: Chain) {
    exists i :: 0 <= i < |rules| && rules[i].target == Jump(c)
  }

  predicate NoOwnJump(rules: seq<Rule>) {
    forall i | 0 <= i < |rules| :: rules[i].target.Jump? ==> !Own(rules[i].target.chain)
  }

  /** The mangle table iptables ends up with. */
  function Installed(f: Family, c: Config, t: Table): Table
    requires Clean(t)
  {
    t[PreChain := [Rule([], Jump(SourceChain))] + t[PreChain]][PostChain := [Rule([], Jump(DestChain))] + t[PostChain]]
     [SourceChain := SourceRules(f, Visited(c))][DestChain := DestRules(f, Visited(c))][RuleChain := QueueRules(c)]
  }

  // ------------------------------------------------------------- closed form

  /** Addresses that are never touched, as ranges. */
  predicate Excluded(f: Family, a: nat) {
    if f.V4? then
      || a <= 0x00FFFFFF || 0x0A000000 <= a <= 0x0AFFFFFF || 0x64400000 <= a <= 0x647FFFFF || 0x7F000000 <= a <= 0x7FFFFFFF
      || 0xA9FE0000 <= a <= 0xA9FEFFFF || 0xAC100000 <= a <= 0xAC1FFFFF || 0xC0A80000 <= a <= 0xC0A8FFFF
      || 0xE0000000 <= a <= 0xFFFFFFFF
    else
      !(0x2000_0000_0000_0000_0000_0000_0000_0000 <= a <= 0x3FFF_FFFF_FFFF_FFFF_FFFF_FFFF_FFFF_FFFF)
  }

  predicate Listed(c: Config, name: Name) {
    c.all || name in c.ifaces
  }

  /** Early UDP that does not carry our mark. */
  predicate Wanted(c: Config, p: Packet) {
    p.protocol.Udp? && p.seen.Some? && 1 <= p.seen.value <= 5 && !MaskEquals(p.mark, c.mask, c.mark)
  }

  /** Drop inbound time-exceeded on a listed device; otherwise leave excluded addresses
      alone; otherwise queue wanted packets on a listed device. */
  function Policy(f: Family, c: Config, hook: Hook, p: Packet): Verdict {
    if hook.Prerouting? && Listed(c, p.inIf) && p.protocol == (if f.V4? then Icmp(11) else Icmp6(3)) then Dropped
    else if Excluded(f, if hook.Prerouting? then p.src else p.dst) then Through
    else if Listed(c, if hook.Prerouting? then p.inIf else p.outIf) && Wanted(c, p) then Queued(c.queue)
    else Through
  }
}
