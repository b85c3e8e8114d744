/** Both rule compilers mean the closed form. */
module FirewallMeaning {
  import opened Common
  import opened Firewall

  // ----------------------------------------------------------------- address ranges

  lemma QuotientIs(a: nat, n: nat, k: nat)
    requires n > 0 && n * k <= a < n * k + n
    ensures a / n == k
  {
    var q := a / n;
    assert a == n * q + a % n;
    assert n * q == n * k + n * (q - k);
    MulSign(n, q - k);
  }

  /** A block that starts at one of its own multiples is a range. */
  lemma BlockIsRange(a: nat, b: nat, n: nat, k: nat)
    requires n > 0 && b == n * k
    ensures a / n == b / n <==> b <= a < b + n
  {
    QuotientIs(b, n, k);
    var q := a / n;
    assert a == n * q + a % n;
    if b <= a < b + n { QuotientIs(a, n, k); }
  }

  lemma {:induction false} PowAdd(m: nat, n: nat)
    ensures Pow2(m + n) == Pow2(m) * Pow2(n)
  {
    if m > 0 {
      PowAdd(m - 1, n);
      assert Pow2(m + n) == 2 * Pow2(m - 1 + n);
      assert 2 * (Pow2(m - 1) * Pow2(n)) == (2 * Pow2(m - 1)) * Pow2(n);
    }
  }

  lemma Blocks()
    ensures Pow2(16) == 0x10000 && Pow2(20) == 0x100000 && Pow2(22) == 0x400000
    ensures Pow2(24) == 0x1000000 && Pow2(29) == 0x20000000
    ensures Pow2(125) == 0x2000_0000_0000_0000_0000_0000_0000_0000
  {
    assert Pow2(0) == 1 && Pow2(1) == 2 && Pow2(2) == 4 && Pow2(3) == 8 && Pow2(4) == 16 && Pow2(5) == 32;
    PowAdd(4, 4);
    PowAdd(8, 8);
    PowAdd(16, 4);
    PowAdd(20, 2);
    PowAdd(20, 4);
    PowAdd(24, 5);
    PowAdd(24, 24);
    PowAdd(48, 48);
    PowAdd(96, 29);
  }

  lemma V4Block(a: nat, p: Prefix, n: nat, k: nat)
    requires p.len <= 32 && Pow2(32 - p.len) == n > 0 && p.base == n * k
    ensures InPrefix(V4, a, p) <==> p.base <= a < p.base + n
  {
    BlockIsRange(a, p.base, n, k);
  }

  lemma V4Ranges(a: nat)
    ensures InPrefix(V4, a, EXCLUDED_V4[0]) <==> a <= 0x00FFFFFF
    ensures InPrefix(V4, a, EXCLUDED_V4[1]) <==> 0x0A000000 <= a <= 0x0AFFFFFF
    ensures InPrefix(V4, a, EXCLUDED_V4[2]) <==> 0x64400000 <= a <= 0x647FFFFF
    ensures InPrefix(V4, a, EXCLUDED_V4[3]) <==> 0x7F000000 <= a <= 0x7FFFFFFF
    ensures InPrefix(V4, a, EXCLUDED_V4[4]) <==> 0xA9FE0000 <= a <= 0xA9FEFFFF
    ensures InPrefix(V4, a, EXCLUDED_V4[5]) <==> 0xAC100000 <= a <= 0xAC1FFFFF
    ensures InPrefix(V4, a, EXCLUDED_V4[6]) <==> 0xC0A80000 <= a <= 0xC0A8FFFF
    ensures InPrefix(V4, a, EXCLUDED_V4[7]) <==> 0xE0000000 <= a <= 0xFFFFFFFF
  {
    Blocks();
    hide InPrefix, Pow2;
    V4Block(a, EXCLUDED_V4[0], 0x1000000, 0);
    V4Block(a, EXCLUDED_V4[1], 0x1000000, 0x0A);
    V4Block(a, EXCLUDED_V4[2], 0x400000, 0x191);
    V4Block(a, EXCLUDED_V4[3], 0x1000000, 0x7F);
    V4Block(a, EXCLUDED_V4[4], 0x10000, 0xA9FE);
    V4Block(a, EXCLUDED_V4[5], 0x100000, 0xAC1);
    V4Block(a, EXCLUDED_V4[6], 0x10000, 0xC0A8);
    V4Block(a, EXCLUDED_V4[7], 0x20000000, 7);
  }

  lemma ExcludedByPrefix(a: nat)
    ensures Excluded(V4, a) <==> exists i :: 0 <= i < 8 && InPrefix(V4, a, EXCLUDED_V4[i])
  {
    V4Ranges(a);
    hide InPrefix, Pow2;
  }

  lemma ExcludedByPrefix6(a: nat)
    ensures Excluded(V6, a) <==> !InPrefix(V6, a, GLOBAL_UNICAST)
  {
    Blocks();
    BlockIsRange(a, GLOBAL_UNICAST.base, Pow2(125), 1);
  }

  // ----------------------------------------------------------------- rule by rule

  /** A list of visited interfaces covers a device name. */
  predicate Covers(names: seq<Option<Name>>, name: Name) {
    None in names || Some(name) in names
  }

  predicate IsTimeExceeded(f: Family, p: Packet) {
    p.protocol == if f.V4? then Icmp(11) else Icmp6(3)
  }

  lemma {:induction false} EvalDrops(f: Family, t: Table, names: seq<Option<Name>>, rest: seq<Rule>, p: Packet, d: nat)
    ensures Eval(f, t, Drops(f, names) + rest, p, d)
         == if IsTimeExceeded(f, p) && Covers(names, p.inIf) then Dropped else Eval(f, t, rest, p, d)
  {
    if names == [] {
      assert Drops(f, names) + rest == rest;
    } else {
      var last, init := names[|names| - 1], names[..|names| - 1];
      EvalDrops(f, t, init, rest, p, d);
      assert (Drops(f, names) + rest)[1..] == Drops(f, init) + rest;
      assert names == init + [last];
      DropMatches(f, last, p);
    }
  }

  lemma DropMatches(f: Family, name: Option<Name>, p: Packet)
    ensures Matches(f, DropRule(f, name), p) <==> IsTimeExceeded(f, p) && Covers([name], p.inIf)
  {
    var ms := DropRule(f, name).matches;
    assert ms[|ms| - 1] == TimeExceeded(f);
    assert name.Some? ==> ms[0] == InIf(name.value);
  }

  function Device(source: bool, p: Packet): Name {
    if source then p.inIf else p.outIf
  }

  lemma JumpMatches(f: Family, source: bool, name: Option<Name>, p: Packet)
    ensures Matches(f, JumpRule(source, name), p) <==> Covers([name], Device(source, p))
  {
    var ms := JumpRule(source, name).matches;
    assert name.Some? ==> ms[0] == if source then InIf(name.value) else OutIf(name.value);
  }

  /** What the shared chain decides. */
  function Shared(c: Config, p: Packet): Verdict {
    if Wanted(c, p) then Queued(c.queue) else Through
  }

  lemma EvalShared(f: Family, t: Table, c: Config, p: Packet, d: nat)
    ensures Eval(f, t, QueueRules(c), p, d) == Shared(c, p)
  {
    hide MaskEquals;
    var rules := QueueRules(c);
    assert rules[0].matches[0] == Marked(c.mask, c.mark);
    assert rules[1].matches[0] == IsUdp && rules[1].matches[1] == Seen(1, 5);
    assert rules[1..] == [rules[1]] && rules[1..][1..] == [];
    assert Matches(f, rules[0], p) <==> MaskEquals(p.mark, c.mask, c.mark);
    assert Matches(f, rules[1], p) <==> p.protocol.Udp? && p.seen.Some? && 1 <= p.seen.value <= 5;
    assert Eval(f, t, rules[1..], p, d) == if Matches(f, rules[1], p) then Queued(c.queue) else Through;
  }

  lemma {:induction false} EvalJumps(f: Family, t: Table, c: Config, source: bool, names: seq<Option<Name>>, rest: seq<Rule>,
                                     p: Packet, d: nat)
    requires d > 0 && RuleChain in t && t[RuleChain] == QueueRules(c)
    ensures Eval(f, t, Jumps(source, names) + rest, p, d)
         == if Covers(names, Device(source, p)) && Wanted(c, p) then Queued(c.queue) else Eval(f, t, rest, p, d)
    decreases |names|
  {
    if names == [] {
      assert Jumps(source, names) + rest == rest;
    } else {
      var last, init := names[|names| - 1], names[..|names| - 1];
      var more := [JumpRule(source, last)] + rest;
      EvalJumps(f, t, c, source, init, more, p, d);
      assert Jumps(source, names) + rest == Jumps(source, init) + more;
      assert names == init + [last];
      assert more[1..] == rest;
      JumpMatches(f, source, last, p);
      EvalShared(f, t, c, p, d - 1);
    }
  }

  predicate AllReturn(rules: seq<Rule>) {
    forall i | 0 <= i < |rules| :: rules[i].target.Return?
  }

  lemma {:induction false} EvalReturns(f: Family, t: Table, rules: seq<Rule>, rest: seq<Rule>, p: Packet, d: nat)
    requires AllReturn(rules)
    ensures Eval(f, t, rules + rest, p, d)
         == if exists i :: 0 <= i < |rules| && Matches(f, rules[i], p) then Through else Eval(f, t, rest, p, d)
  {
    if rules == [] {
      assert rules + rest == rest;
    } else {
      assert (rules + rest)[1..] == rules[1..] + rest;
      EvalReturns(f, t, rules[1..], rest, p, d);
      if i :| 0 <= i < |rules[1..]| && Matches(f, rules[1..][i], p) { assert Matches(f, rules[i + 1], p); }
      if i :| 0 <= i < |rules| && Matches(f, rules[i], p) && i > 0 { assert Matches(f, rules[1..][i - 1], p); }
    }
  }

  function Address(source: bool, p: Packet): nat {
    if source then p.src else p.dst
  }

  lemma ReturnsExclude(f: Family, source: bool, p: Packet)
    ensures AllReturn(Returns(f, source))
    ensures (exists i :: 0 <= i < |Returns(f, source)| && Matches(f, Returns(f, source)[i], p)) <==> Excluded(f, Address(source, p))
  {
    var rules := Returns(f, source);
    var a := Address(source, p);
    if f.V4? {
      ExcludedByPrefix(a);
      forall i | 0 <= i < 8 ensures Matches(f, rules[i], p) <==> InPrefix(V4, a, EXCLUDED_V4[i]) {
        assert rules[i].matches[0] == if source then SrcIn(EXCLUDED_V4[i]) else DstIn(EXCLUDED_V4[i]);
      }
    } else {
      ExcludedByPrefix6(a);
      assert rules[0].matches[0] == if source then SrcOutside(GLOBAL_UNICAST) else DstOutside(GLOBAL_UNICAST);
      assert Matches(f, rules[0], p) <==> Excluded(f, a);
    }
  }

  lemma VisitedCovers(c: Config, name: Name)
    ensures Covers(Visited(c), name) <==> Listed(c, name)
  {
    if !c.all {
      if name in c.ifaces {
        var i :| 0 <= i < |c.ifaces| && c.ifaces[i] == name;
        assert Visited(c)[i] == Some(name);
      }
    } else {
      assert Visited(c)[0] == None;
    }
  }

  /** The source chain followed by anything. */
  lemma SourceChainMeans(f: Family, t: Table, c: Config, p: Packet, d: nat)
    requires d > 0 && RuleChain in t && t[RuleChain] == QueueRules(c)
    ensures Eval(f, t, SourceRules(f, Visited(c)), p, d) == Policy(f, c, Prerouting, p)
  {
    var names := Visited(c);
    var jumps := Jumps(true, names);
    VisitedCovers(c, p.inIf);
    assert jumps + [] == jumps;
    EvalJumps(f, t, c, true, names, [], p, d);
    ReturnsExclude(f, true, p);
    EvalReturns(f, t, Returns(f, true), jumps, p, d);
    EvalDrops(f, t, names, Returns(f, true) + jumps, p, d);
    assert SourceRules(f, names) == Drops(f, names) + (Returns(f, true) + jumps);
  }

  lemma DestChainMeans(f: Family, t: Table, c: Config, p: Packet, d: nat)
    requires d > 0 && RuleChain in t && t[RuleChain] == QueueRules(c)
    ensures Eval(f, t, DestRules(f, Visited(c)), p, d) == Policy(f, c, Postrouting, p)
  {
    var names := Visited(c);
    var jumps := Jumps(false, names);
    VisitedCovers(c, p.outIf);
    assert jumps + [] == jumps;
    EvalJumps(f, t, c, false, names, [], p, d);
    ReturnsExclude(f, false, p);
    EvalReturns(f, t, Returns(f, false), jumps, p, d);
  }

  // ----------------------------------------------------------------- the two back ends

  /** nft: the verdict of the hook's chain is the closed form. */
  lemma {:induction false} NftMeansPolicy(f: Family, c: Config, hook: Hook, p: Packet, d: nat)
    requires d > 0
    ensures Eval(f, NftTable(f, c), NftTable(f, c)[OwnChain(hook)], p, d) == Policy(f, c, hook, p)
  {
    if hook.Prerouting? {
      SourceChainMeans(f, NftTable(f, c), c, p, d);
    } else {
      DestChainMeans(f, NftTable(f, c), c, p, d);
    }
  }

  /** No rule of the unrelated tables jumps to the two built-in chains, as the kernel insists. */
  predicate BuiltInsUncalled(t: Table) {
    forall k | k in t :: !Calls(t[k], PreChain) && !Calls(t[k], PostChain)
  }

  /** Rules that never call our chains or a built-in chain evaluate as before. */
  lemma {:induction false} ForeignRulesUnchanged(f: Family, c: Config, t: Table, rules: seq<Rule>, p: Packet, d: nat)
    requires Clean(t) && BuiltInsUncalled(t)
    requires NoOwnJump(rules) && !Calls(rules, PreChain) && !Calls(rules, PostChain)
    ensures Eval(f, Installed(f, c, t), rules, p, d) == Eval(f, t, rules, p, d)
    decreases d, |rules|
  {
    if rules != [] {
      var rest := rules[1..];
      assert forall i | 0 <= i < |rest| :: rest[i] == rules[i + 1];
      ForeignRulesUnchanged(f, c, t, rest, p, d);
      var target := rules[0].target;
      if target.Jump? && d > 0 && target.chain in t {
        assert target.chain != PreChain && target.chain != PostChain;
        ForeignRulesUnchanged(f, c, t, t[target.chain], p, d - 1);
      }
    }
  }

  /** iptables: our rules decide first; what they let through sees the unrelated rules exactly
      as if nothing had been installed. */
  lemma {:induction false} IptablesMeansPolicy(f: Family, c: Config, t: Table, hook: Hook, p: Packet, d: nat)
    requires Clean(t) && BuiltInsUncalled(t) && d > 1
    ensures Eval(f, Installed(f, c, t), Installed(f, c, t)[BaseChain(hook)], p, d)
         == if Policy(f, c, hook, p).Through? then Eval(f, t, t[BaseChain(hook)], p, d) else Policy(f, c, hook, p)
  {
    var after := Installed(f, c, t);
    var base := t[BaseChain(hook)];
    if hook.Prerouting? {
      SourceChainMeans(f, after, c, p, d - 1);
    } else {
      DestChainMeans(f, after, c, p, d - 1);
    }
    ForeignRulesUnchanged(f, c, t, base, p, d);
    var first := Rule([], Jump(OwnChain(hook)));
    assert after[BaseChain(hook)] == [first] + base;
    assert ([first] + base)[1..] == base;
    assert Matches(f, first, p);
  }

  /** Both back ends agree on every packet our rules decide. */
  lemma {:induction false} BackEndsAgree(f: Family, c: Config, t: Table, hook: Hook, p: Packet, d: nat)
    requires Clean(t) && BuiltInsUncalled(t) && d > 1
    ensures Eval(f, Installed(f, c, t), Installed(f, c, t)[BaseChain(hook)], p, d)
         == var nft := Eval(f, NftTable(f, c), NftTable(f, c)[OwnChain(hook)], p, d);
            (if nft.Through? then Eval(f, t, t[BaseChain(hook)], p, d) else nft)
  {
    hide Eval, Policy, Clean, BuiltInsUncalled;
    IptablesMeansPolicy(f, c, t, hook, p, d);
    NftMeansPolicy(f, c, hook, p, d);
  }

  lemma MaskIs(mark: bv32, mask: bv32, value: bv32, bits: bv32)
    requires bits == mark & mask
    ensures MaskEquals(mark, mask, value) <==> bits == value
  {
  }

  /** The closed form case by case, with the condition on the mark still to be read. */
  lemma PolicyCases(f: Family, c: Config, hook: Hook, p: Packet, clear: bool)
    requires clear <==> !MaskEquals(p.mark, c.mask, c.mark)
    ensures var v := Policy(f, c, hook, p);
            var listed := c.all || (if hook.Prerouting? then p.inIf else p.outIf) in c.ifaces;
            var early := p.protocol == Udp && p.seen.Some? && 1 <= p.seen.value <= 5;
            var public := !Excluded(f, if hook.Prerouting? then p.src else p.dst);
            && (v == Queued(c.queue) <==> early && listed && public && clear)
            && (v == Dropped <==> hook.Prerouting? && listed && p.protocol == (if f.V4? then Icmp(11) else Icmp6(3)))
            && (v != Queued(c.queue) && v != Dropped ==> v == Through)
  {
    hide MaskEquals, Excluded;
  }

  /** What the rules do, said without naming a rule: inbound time-exceeded on a listed device is
      dropped, early UDP on a listed device with an address outside the excluded ranges is queued
      exactly if the bits of its mark that the mask selects are not those of the socket mark, and
      nothing is accepted outright. */
  lemma {:induction false} QueuedExactly(f: Family, c: Config, hook: Hook, p: Packet, bits: bv32, d: nat)
    requires d > 0 && bits == p.mark & c.mask
    ensures var v := Eval(f, NftTable(f, c), NftTable(f, c)[OwnChain(hook)], p, d);
            var listed := c.all || (if hook.Prerouting? then p.inIf else p.outIf) in c.ifaces;
            var early := p.protocol == Udp && p.seen.Some? && 1 <= p.seen.value <= 5;
            var public := !Excluded(f, if hook.Prerouting? then p.src else p.dst);
            && (v == Queued(c.queue) <==> early && listed && public && bits != c.mark)
            && (v == Dropped <==> hook.Prerouting? && listed && p.protocol == (if f.V4? then Icmp(11) else Icmp6(3)))
            && (v != Queued(c.queue) && v != Dropped ==> v == Through)
  {
    hide *;
    NftMeansPolicy(f, c, hook, p, d);
    MaskIs(p.mark, c.mask, c.mark, bits);
    PolicyCases(f, c, hook, p, bits != c.mark);
  }

  /** A packet's unmasked bits do not enter the closed form. */
  lemma PolicyMasked(f: Family, c: Config, hook: Hook, p: Packet, q: Packet)
    requires q == p.(mark := q.mark) && (MaskEquals(q.mark, c.mask, c.mark) <==> MaskEquals(p.mark, c.mask, c.mark))
    ensures Policy(f, c, hook, p) == Policy(f, c, hook, q)
  {
    hide MaskEquals, Excluded;
  }

  /** Other programs' bits of the mark do not matter: packets that differ in unmasked bits only get the
      same verdict from nft, and from our rules under iptables; what those let through, for both
      packets alike, is left to the unrelated rules. */
  lemma {:induction false} OnlyMaskedBitsMatter(f: Family, c: Config, t: Table, hook: Hook, p: Packet, q: Packet, d: nat)
    requires Clean(t) && BuiltInsUncalled(t) && d > 1
    requires q == p.(mark := q.mark) && q.mark & c.mask == p.mark & c.mask
    ensures var nft, after := NftTable(f, c), Installed(f, c, t);
            var own, base := OwnChain(hook), BaseChain(hook);
            && Eval(f, nft, nft[own], p, d) == Eval(f, nft, nft[own], q, d)
            && (if Eval(f, nft, nft[own], p, d).Through?
                then Eval(f, after, after[base], p, d) == Eval(f, t, t[base], p, d)
                  && Eval(f, after, after[base], q, d) == Eval(f, t, t[base], q, d)
                else Eval(f, after, after[base], p, d) == Eval(f, after, after[base], q, d) == Eval(f, nft, nft[own], p, d))
  {
    hide *;
    MaskIs(p.mark, c.mask, c.mark, p.mark & c.mask);
    MaskIs(q.mark, c.mask, c.mark, p.mark & c.mask);
    PolicyMasked(f, c, hook, p, q);
    IptablesMeansPolicy(f, c, t, hook, p, d);
    IptablesMeansPolicy(f, c, t, hook, q, d);
    NftMeansPolicy(f, c, hook, p, d);
    NftMeansPolicy(f, c, hook, q, d);
  }

  /** No packet that carries the socket mark is queued. */
  ghost predicate MarkedNeverQueued(f: Family, c: Config) {
    forall hook: Hook, p: Packet :: p.mark == c.mark ==> !Policy(f, c, hook, p).Queued?
  }

  lemma PublicAddress(f: Family, a: nat)
    requires a == if f.V4? then 0x08080808 else 0x2000_0000_0000_0000_0000_0000_0000_0000
    ensures !Excluded(f, a)
  {
  }

  lemma EarlyUdpIsQueued(f: Family, c: Config) returns (p: Packet)
    requires c.all || c.ifaces != []
    requires !MaskEquals(c.mark, c.mask, c.mark)
    ensures p.mark == c.mark && Policy(f, c, Prerouting, p) == Queued(c.queue)
  {
    hide MaskEquals, Excluded;
    var name := if c.all then "" else c.ifaces[0];
    var a := if f.V4? then 0x08080808 else 0x2000_0000_0000_0000_0000_0000_0000_0000;
    PublicAddress(f, a);
    p := Packet(name, name, a, a, Udp, c.mark, Some(1));
  }

  lemma MaskGuards(f: Family, c: Config, inside: bool)
    requires c.all || c.ifaces != []
    requires inside <==> MaskEquals(c.mark, c.mask, c.mark)
    ensures inside <==> MarkedNeverQueued(f, c)
  {
    hide MaskEquals, Excluded;
    if MaskEquals(c.mark, c.mask, c.mark) {
      forall hook: Hook, p: Packet | p.mark == c.mark ensures !Policy(f, c, hook, p).Queued? {
        assert !Wanted(c, p);
      }
    } else {
      var p := EarlyUdpIsQueued(f, c);
    }
  }

  /** Marked packets escape the queue exactly when the mark lies inside the mask. */
  lemma {:induction false} NoFeedback(f: Family, c: Config)
    requires c.all || c.ifaces != []
    ensures c.mark & c.mask == c.mark <==> MarkedNeverQueued(f, c)
  {
    hide *;
    MaskIs(c.mark, c.mask, c.mark, c.mark & c.mask);
    MaskGuards(f, c, c.mark & c.mask == c.mark);
  }

  lemma {:induction false} GuardedPacketsEscape(f: Family, c: Config, t: Table, hook: Hook, p: Packet, d: nat)
    requires MaskEquals(c.mark, c.mask, c.mark) && p.mark == c.mark
    requires Clean(t) && BuiltInsUncalled(t) && d > 1
    ensures !Eval(f, NftTable(f, c), NftTable(f, c)[OwnChain(hook)], p, d).Queued?
    ensures Eval(f, Installed(f, c, t), Installed(f, c, t)[BaseChain(hook)], p, d).Queued?
        ==> Eval(f, t, t[BaseChain(hook)], p, d).Queued?
  {
    hide *;
    PolicyCases(f, c, hook, p, false);
    IptablesMeansPolicy(f, c, t, hook, p, d);
    NftMeansPolicy(f, c, hook, p, d);
  }

  /** With the mark inside the mask, neither back end's rules queue a packet that carries it; under
      iptables it can only be queued by an unrelated rule that would have queued it anyway. */
  lemma {:induction false} MarkedPacketsEscape(f: Family, c: Config, t: Table, hook: Hook, p: Packet, d: nat)
    requires c.mark & c.mask == c.mark && p.mark == c.mark
    requires Clean(t) && BuiltInsUncalled(t) && d > 1
    ensures !Eval(f, NftTable(f, c), NftTable(f, c)[OwnChain(hook)], p, d).Queued?
    ensures Eval(f, Installed(f, c, t), Installed(f, c, t)[BaseChain(hook)], p, d).Queued?
        ==> Eval(f, t, t[BaseChain(hook)], p, d).Queued?
  {
    hide *;
    MaskIs(c.mark, c.mask, c.mark, c.mark & c.mask);
    GuardedPacketsEscape(f, c, t, hook, p, d);
  }
}
