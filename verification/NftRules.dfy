/** The nft back end: one private table per family, loaded as text and extended per interface. */
module NftRules {
  import opened Common
  import opened Firewall
  import opened FirewallRules
  import opened Numerals

  datatype NftCommand =
    | DeleteTable
    | Load(table: Table)                        // nft -f: creates the table or adds to it, in one transaction
    | Insert(chain: Chain, rule: Rule)
    | Add(chain: Chain, rule: Rule)

  function RulesOf(t: Table, c: Chain): seq<Rule> {
    if c in t then t[c] else []
  }

  function Merge(a: Table, b: Table): Table {
    map k | k in a.Keys + b.Keys :: RulesOf(a, k) + RulesOf(b, k)
  }

  predicate NftPermits(s: Option<Table>, cmd: NftCommand) {
    match cmd
    case DeleteTable => s.Some?
    case Load(_) => true
    case Insert(c, r) => s.Some? && c in s.value && (r.target.Jump? ==> r.target.chain in s.value)
    case Add(c, r) => s.Some? && c in s.value && (r.target.Jump? ==> r.target.chain in s.value)
  }

  function NftAfter(s: Option<Table>, cmd: NftCommand): Option<Table> {
    if !NftPermits(s, cmd) then s
    else
      match cmd
      case DeleteTable => None
      case Load(t) => if s.None? then Some(t) else Some(Merge(s.value, t))
      case Insert(c, r) => Some(s.value[c := [r] + s.value[c]])
      case Add(c, r) => Some(s.value[c := s.value[c] + [r]])
  }

  /** The table as the ruleset text describes it. */
  function NftBase(f: Family, c: Config): (t: Table)
    ensures HasChains(t)
  {
    map[SourceChain := Returns(f, true), DestChain := Returns(f, false), RuleChain := QueueRules(c)]
  }

  predicate HasChains(t: Table) {
    SourceChain in t && DestChain in t && RuleChain in t
  }

  /** What one interface adds: its drop rule in front, its two jumps behind. */
  function Extend(f: Family, t: Table, name: Option<Name>): (r: Table)
    requires HasChains(t)
    ensures HasChains(r)
  {
    t[SourceChain := [DropRule(f, name)] + t[SourceChain] + [JumpRule(true, name)]]
     [DestChain := t[DestChain] + [JumpRule(false, name)]]
  }

  function ExtendAll(f: Family, t: Table, names: seq<Option<Name>>): (r: Table)
    requires HasChains(t)
    ensures HasChains(r)
  {
    if names == [] then t else Extend(f, ExtendAll(f, t, names[..|names| - 1]), names[|names| - 1])
  }

  /** On the fresh table this is the table of the policy. */
  lemma {:induction false} ExtendedBase(f: Family, c: Config, names: seq<Option<Name>>)
    ensures ExtendAll(f, NftBase(f, c), names)
         == map[SourceChain := SourceRules(f, names), DestChain := DestRules(f, names), RuleChain := QueueRules(c)]
  {
    if names == [] {
      assert SourceRules(f, []) == Returns(f, true) && DestRules(f, []) == Returns(f, false);
    } else {
      var init, name := names[..|names| - 1], names[|names| - 1];
      ExtendedBase(f, c, init);
      assert init + [name] == names;
      OneMoreInterface(f, init, name);
      hide SourceRules, DestRules, Returns, QueueRules, DropRule, JumpRule;
    }
  }

  lemma OneMoreInterface(f: Family, done: seq<Option<Name>>, name: Option<Name>)
    ensures SourceRules(f, done + [name]) == [DropRule(f, name)] + SourceRules(f, done) + [JumpRule(true, name)]
    ensures DestRules(f, done + [name]) == DestRules(f, done) + [JumpRule(false, name)]
  {
    assert (done + [name])[..|done|] == done && (done + [name])[|done|] == name;
  }

  /** Nothing an interface adds makes up for rules that were there before. */
  lemma {:induction false} ExtendAllInjective(f: Family, a: Table, b: Table, names: seq<Option<Name>>)
    requires HasChains(a) && HasChains(b)
    ensures ExtendAll(f, a, names) == ExtendAll(f, b, names) <==> a == b
  {
    if names != [] {
      var init := names[..|names| - 1];
      ExtendAllInjective(f, a, b, init);
      if ExtendAll(f, a, names) == ExtendAll(f, b, names) {
        ExtendInjective(f, ExtendAll(f, a, init), ExtendAll(f, b, init), names[|names| - 1]);
      }
    }
  }

  lemma ExtendInjective(f: Family, a: Table, b: Table, name: Option<Name>)
    requires HasChains(a) && HasChains(b) && Extend(f, a, name) == Extend(f, b, name)
    ensures a == b
  {
    var x, y := Extend(f, a, name), Extend(f, b, name);
    hide DropRule, JumpRule;
    assert x[SourceChain][1..|x[SourceChain]| - 1] == a[SourceChain] && y[SourceChain][1..|y[SourceChain]| - 1] == b[SourceChain];
    assert x[DestChain][..|x[DestChain]| - 1] == a[DestChain] && y[DestChain][..|y[DestChain]| - 1] == b[DestChain];
    assert a.Keys == x.Keys && b.Keys == y.Keys;
    forall k | k in a ensures k in b && a[k] == b[k] {
      assert k in x && k in y;
      if k != SourceChain && k != DestChain { assert x[k] == a[k] && y[k] == b[k]; }
    }
  }

  // ------------------------------------------------------------------- the ruleset text

  const RULESET_SIZE := 2048

  const LOCAL4: seq<string> := ["0.0.0.0/8      ", "10.0.0.0/8     ", "100.64.0.0/10  ", "127.0.0.0/8    ",
                                "169.254.0.0/16 ", "172.16.0.0/12  ", "192.168.0.0/16 ", "224.0.0.0/3    "]

  function ExcludeLines(f: Family, source: bool): seq<string> {
    var end := if source then "saddr " else "daddr ";
    if f.V6? then ["        ip6 " + end + "!= 2000::/3 return;\n"]
    else seq(|LOCAL4|, i requires 0 <= i < |LOCAL4| => "        ip " + end + LOCAL4[i] + "return;\n")
  }

  function ChainLines(f: Family, source: bool): seq<string> {
    var word := if source then "prerouting" else "postrouting";
    ["    chain fs_" + word + " {\n",
     "        type filter hook " + word + " priority mangle - 5;\n",
     "        policy accept;\n"] + ExcludeLines(f, source) + ["    }\n", "\n"]
  }

  function RuleLines(mask: nat, mark: nat, queue: nat): seq<string> {
    ["    chain fs_rules {\n",
     "        meta mark and " + Format(mask, 10) + " == " + Format(mark, 10) + " return;\n",
     "        meta l4proto udp ct packets 1-5 queue num " + Format(queue, 10) + " bypass;\n",
     "    }\n", "}\n"]
  }

  function RulesetLines(f: Family, mask: nat, mark: nat, queue: nat): seq<string> {
    ["table " + FamilyWord(f) + " fakesip {\n"] + ChainLines(f, true) + ChainLines(f, false) + RuleLines(mask, mark, queue)
  }

  function Concat(lines: seq<string>): string {
    if lines == [] then "" else lines[0] + Concat(lines[1..])
  }

  /** The whole text and its terminator fit the buffer. */
  predicate RulesetFits(f: Family, c: Config) {
    |Concat(RulesetLines(f, c.mask as nat, c.mark as nat, c.queue))| < RULESET_SIZE
  }

  lemma {:induction false} ConcatLength(lines: seq<string>, n: nat)
    requires forall i | 0 <= i < |lines| :: |lines[i]| <= n
    ensures |Concat(lines)| <= n * |lines|
  {
    if lines != [] {
      ConcatLength(lines[1..], n);
      assert n * |lines| == n + n * |lines[1..]|;
    }
  }

  lemma ExcludeLinesShort(f: Family, source: bool)
    ensures |ExcludeLines(f, source)| <= 8 && forall i | 0 <= i < |ExcludeLines(f, source)| :: |ExcludeLines(f, source)[i]| <= 60
  {
    assert forall i | 0 <= i < |LOCAL4| :: |LOCAL4[i]| == 15;
  }

  lemma ChainLinesShort(f: Family, source: bool)
    ensures |ChainLines(f, source)| <= 13 && forall i | 0 <= i < |ChainLines(f, source)| :: |ChainLines(f, source)[i]| <= 60
  {
    ExcludeLinesShort(f, source);
    hide ExcludeLines;
  }

  lemma RuleLinesShort(mask: nat, mark: nat, queue: nat)
    requires mask <= U32_MAX && mark <= U32_MAX && queue <= U32_MAX
    ensures |RuleLines(mask, mark, queue)| == 5
    ensures forall i | 0 <= i < 5 :: |RuleLines(mask, mark, queue)[i]| <= if i == 2 then 69 else 60
  {
    Powers();
    FormatLength(mask, 10, 10);
    FormatLength(mark, 10, 10);
    FormatLength(queue, 10, 10);
    hide Format;
  }

  lemma {:induction false} ConcatJoins(a: seq<string>, b: seq<string>)
    ensures Concat(a + b) == Concat(a) + Concat(b)
  {
    if a == [] {
      assert a + b == b;
    } else {
      assert (a + b)[1..] == a[1..] + b;
      ConcatJoins(a[1..], b);
    }
  }

  lemma {:induction false} RulesetTextFits(f: Family, mask: nat, mark: nat, queue: nat)
    requires mask <= U32_MAX && mark <= U32_MAX && queue <= U32_MAX
    ensures |Concat(RulesetLines(f, mask, mark, queue))| < RULESET_SIZE
  {
    RuleLinesShort(mask, mark, queue);
    ChainLinesShort(f, true);
    ChainLinesShort(f, false);
    assert |"table " + FamilyWord(f) + " fakesip {\n"| <= 60;
    hide ChainLines, RuleLines, FamilyWord;
    var front := ["table " + FamilyWord(f) + " fakesip {\n"] + ChainLines(f, true) + ChainLines(f, false);
    var rules := RuleLines(mask, mark, queue);
    ConcatJoins(front, rules);
    ConcatLength(front, 60);
    ConcatLength(rules, 69);
    hide Concat;
  }

  lemma Word32(x: bv32)
    ensures x as nat <= U32_MAX
  {
  }

  /** Whatever the numbers are, the ruleset text fits its buffer. */
  lemma RulesetAlwaysFits(f: Family, c: Config)
    requires c.queue <= U32_MAX
    ensures RulesetFits(f, c)
  {
    Word32(c.mask);
    Word32(c.mark);
    hide Concat, RulesetLines;
    RulesetTextFits(f, c.mask as nat, c.mark as nat, c.queue);
  }

  // ------------------------------------------------------------------- command texts

  const TEXT_SIZE := 120

  function FamilyWord(f: Family): string {
    if f.V4? then "ip" else "ip6"
  }

  function DropText(f: Family, name: Option<Name>): string {
    "insert rule " + FamilyWord(f) + " fakesip fs_prerouting " + (if name.Some? then "iifname \"" + name.value + "\" " else "")
    + (if f.V4? then "icmp" else "icmpv6") + " type time-exceeded counter drop"
  }

  function JumpText(f: Family, source: bool, name: Option<Name>): string {
    "add rule " + FamilyWord(f) + (if source then " fakesip fs_prerouting " else " fakesip fs_postrouting ")
    + (if name.None? then "" else (if source then "iifname \"" else "oifname \"") + name.value + "\" ") + "jump fs_rules"
  }

  /** All three command texts of an interface fit the buffer with their terminator. */
  predicate TextsFit(f: Family, name: Option<Name>) {
    |DropText(f, name)| < TEXT_SIZE && |JumpText(f, true, name)| < TEXT_SIZE && |JumpText(f, false, name)| < TEXT_SIZE
  }

  predicate AllTextsFit(f: Family, names: seq<Option<Name>>) {
    forall i | 0 <= i < |names| :: TextsFit(f, names[i])
  }

  /** Every interface name the option parser accepts fits both back ends' buffers. */
  lemma {:induction false} AcceptedNamesFit(f: Family, c: Config)
    requires forall i | 0 <= i < |c.ifaces| :: |c.ifaces[i]| < IFNAMSIZ
    ensures NamesFit(c) && AllTextsFit(f, Visited(c))
  {
    forall i | 0 <= i < |Visited(c)| ensures TextsFit(f, Visited(c)[i]) {
      var name := Visited(c)[i];
      assert name.Some? ==> |name.value| < IFNAMSIZ;
      assert |FamilyWord(f)| <= 3;
    }
  }

  // ------------------------------------------------------------------- the procedures

  /** The table that setup extends: the ruleset alone, or added to what cleaning failed to delete. */
  function Loaded(f: Family, c: Config, before: Option<Table>): (t: Table)
    ensures HasChains(t)
  {
    if before.None? then NftBase(f, c) else Merge(before.value, NftBase(f, c))
  }

  class Ruleset {
    const family: Family
    var table: Option<Table>

    constructor (f: Family, t: Option<Table>)
      ensures family == f && table == t
    {
      family, table := f, t;
    }

    method Execute(cmd: NftCommand, fault: Fault) returns (ok: bool)
      modifies this
      ensures table == if fault.NotRun? then old(table) else NftAfter(old(table), cmd)
      ensures ok == (fault.Fine? && NftPermits(old(table), cmd))
    {
      ok := fault.Fine? && NftPermits(table, cmd);
      if !fault.NotRun? && NftPermits(table, cmd) {
        match cmd {
          case DeleteTable => table := None;
          case Load(t) => table := if table.None? then Some(t) else Some(Merge(table.value, t));
          case Insert(c, r) => table := Some(table.value[c := [r] + table.value[c]]);
          case Add(c, r) => table := Some(table.value[c := table.value[c] + [r]]);
        }
      }
    }

    method Cleanup(fault: Fault)
      modifies this
      ensures table == if fault.NotRun? then old(table) else None
    {
      var _ := Execute(DeleteTable, fault);
    }

    /** One pass of the interface loop: insert the drop rule, add the two jumps. */
    method DevicePass(name: Option<Name>, faults: seq<Fault>, at: nat) returns (ok: bool)
      requires table.Some? && HasChains(table.value)
      modifies this
      ensures ok <==> TextsFit(family, name) && forall j | at <= j < at + 3 :: FaultAt(faults, j).Fine?
      ensures ok ==> table == Some(Extend(family, old(table.value), name))
    {
      hide DropText, JumpText;
      if |DropText(family, name)| >= TEXT_SIZE { return false; }
      ok := Execute(Insert(SourceChain, DropRule(family, name)), FaultAt(faults, at));
      if !ok { return; }
      if |JumpText(family, true, name)| >= TEXT_SIZE { return false; }
      ok := Execute(Add(SourceChain, JumpRule(true, name)), FaultAt(faults, at + 1));
      if !ok { return; }
      if |JumpText(family, false, name)| >= TEXT_SIZE { return false; }
      ok := Execute(Add(DestChain, JumpRule(false, name)), FaultAt(faults, at + 2));
      if !ok { return; }
      assert table.value == Extend(family, old(table.value), name);
    }

    /** One pass per interface on the loaded table. */
    method IfaceSetup(c: Config, faults: seq<Fault>) returns (ok: bool)
      requires table.Some? && HasChains(table.value) && FaultAt(faults, 0).Fine?
      modifies this
      ensures ok <==> AllTextsFit(family, Visited(c)) && FineUpTo(faults, 1 + 3 * |Visited(c)|)
      ensures ok ==> table == Some(ExtendAll(family, old(table.value), Visited(c)))
    {
      var names := Visited(c);
      hide TextsFit, Visited, Extend, HasChains;
      var i := 0;
      while i < |names|
        invariant 0 <= i <= |names|
        invariant table == Some(ExtendAll(family, old(table.value), names[..i]))
        invariant FineUpTo(faults, 1 + 3 * i)
        invariant forall j | 0 <= j < i :: TextsFit(family, names[j])
      {
        ok := DevicePass(names[i], faults, 1 + 3 * i);
        if !ok { return; }
        assert names[..i + 1][..i] == names[..i];
        i := i + 1;
      }
      assert names[..i] == names;
      ok := true;
    }

    /** Success leaves the complete table exactly when nothing was left to delete or the deletion ran;
        otherwise the new rules stand behind the old ones. */
    method Setup(c: Config, cleaning: Fault, faults: seq<Fault>) returns (ok: bool)
      modifies this
      ensures ok <==> RulesetFits(family, c) && AllTextsFit(family, Visited(c)) && FineUpTo(faults, 1 + 3 * |Visited(c)|)
      ensures var kept := if cleaning.NotRun? then old(table) else None;
        && (ok ==> table == Some(ExtendAll(family, Loaded(family, c, kept), Visited(c))))
        && (ok ==> (table == Some(NftTable(family, c)) <==> Loaded(family, c, kept) == NftBase(family, c)))
        && (kept.None? ==> Loaded(family, c, kept) == NftBase(family, c))
    {
      ExtendedBase(family, c, Visited(c));
      hide ExtendAll, RulesetFits, AllTextsFit, NftBase, Visited, Merge;
      Cleanup(cleaning);
      ghost var kept := table;
      ok := RulesetFits(family, c);
      if !ok { return; }
      ok := Execute(Load(NftBase(family, c)), FaultAt(faults, 0));
      if ok {
        assert table.value == Loaded(family, c, kept);
        ok := IfaceSetup(c, faults);
        ExtendAllInjective(family, Loaded(family, c, kept), NftBase(family, c), Visited(c));
      }
    }
  }
}
