/** The mangle table as iptables edits it, and the command scripts of setup and cleanup. */
module ChainTable {
  import opened Common
  import opened Firewall

  datatype Command =
    | NewChain(chain: Chain)                    // -N
    | Flush(chain: Chain)                       // -F
    | DeleteChain(chain: Chain)                 // -X
    | Append(chain: Chain, rule: Rule)          // -A
    | InsertFirst(chain: Chain, rule: Rule)     // -I
    | DeleteRule(chain: Chain, rule: Rule)      // -D

  predicate BuiltIn(c: Chain) {
    c == PreChain || c == PostChain
  }

  predicate Referenced(t: Table, c: Chain) {
    exists k | k in t :: Calls(t[k], c)
  }

  predicate TargetExists(t: Table, r: Rule) {
    r.target.Jump? ==> r.target.chain in t && !BuiltIn(r.target.chain)
  }

  /** When the kernel carries a command out; otherwise the table keeps its value. */
  predicate Permits(t: Table, cmd: Command) {
    match cmd
    case NewChain(c) => c !in t
    case Flush(c) => c in t
    case DeleteChain(c) => c in t && !BuiltIn(c) && t[c] == [] && !Referenced(t, c)
    case Append(c, r) => c in t && TargetExists(t, r)
    case InsertFirst(c, r) => c in t && TargetExists(t, r)
    case DeleteRule(c, r) => c in t && r in t[c]
  }

  /** The rules with the first copy of `r` taken out. */
  function Without(rules: seq<Rule>, r: Rule): seq<Rule> {
    if rules == [] then []
    else if rules[0] == r then rules[1..]
    else [rules[0]] + Without(rules[1..], r)
  }

  function After(t: Table, cmd: Command): Table {
    if !Permits(t, cmd) then t
    else
      match cmd
      case NewChain(c) => t[c := []]
      case Flush(c) => t[c := []]
      case DeleteChain(c) => t - {c}
      case Append(c, r) => t[c := t[c] + [r]]
      case InsertFirst(c, r) => t[c := [r] + t[c]]
      case DeleteRule(c, r) => t[c := Without(t[c], r)]
  }

  /** The kernel never lets a rule jump to a chain that does not exist. */
  ghost predicate TargetsExist(t: Table) {
    forall c | Referenced(t, c) :: c in t
  }

  lemma {:induction false} WithoutIsPart(rules: seq<Rule>, r: Rule)
    ensures forall x | x in Without(rules, r) :: x in rules
  {
    if rules != [] && rules[0] != r { WithoutIsPart(rules[1..], r); }
  }

  /** Every command keeps it so. */
  lemma TargetsKept(t: Table, cmd: Command)
    requires TargetsExist(t)
    ensures TargetsExist(After(t, cmd))
  {
    var u: Table := After(t, cmd);
    forall c | Referenced(u, c) ensures c in u {
      var k :| k in u && Calls(u[k], c);
      var i :| 0 <= i < |u[k]| && u[k][i].target == Jump(c);
      if cmd.DeleteRule? && cmd.chain in t { WithoutIsPart(t[cmd.chain], cmd.rule); }
      if k in t && u[k][i] in t[k] {
        assert Calls(t[k], c);
        assert Referenced(t, c);
      }
    }
  }

  /** Every command is tried; failures are ignored. */
  function RunAll(t: Table, cmds: seq<Command>): Table
    decreases |cmds|
  {
    if cmds == [] then t else RunAll(After(t, cmds[0]), cmds[1..])
  }

  predicate AllPermitted(t: Table, cmds: seq<Command>)
    decreases |cmds|
  {
    cmds == [] || (Permits(t, cmds[0]) && AllPermitted(After(t, cmds[0]), cmds[1..]))
  }

  // ------------------------------------------------------------------- the two scripts

  const HOOK_SOURCE := Rule([], Jump(SourceChain))
  const HOOK_DEST := Rule([], Jump(DestChain))

  function Appends(c: Chain, rules: seq<Rule>): seq<Command> {
    seq(|rules|, i requires 0 <= i < |rules| => Append(c, rules[i]))
  }

  const HEAD: seq<Command> := [NewChain(SourceChain), NewChain(DestChain), InsertFirst(PreChain, HOOK_SOURCE),
                               InsertFirst(PostChain, HOOK_DEST), NewChain(RuleChain)]

  /** The fixed list of setup commands. */
  function BaseCommands(f: Family, c: Config): seq<Command> {
    HEAD + (Appends(SourceChain, Returns(f, true)) + (Appends(DestChain, Returns(f, false)) + Appends(RuleChain, QueueRules(c))))
  }

  /** One pass of the interface loop. */
  function DeviceCommands(f: Family, name: Option<Name>): seq<Command> {
    [InsertFirst(SourceChain, DropRule(f, name)), Append(SourceChain, JumpRule(true, name)), Append(DestChain, JumpRule(false, name))]
  }

  function LoopCommands(f: Family, names: seq<Option<Name>>): seq<Command> {
    if names == [] then [] else LoopCommands(f, names[..|names| - 1]) + DeviceCommands(f, names[|names| - 1])
  }

  function SetupCommands(f: Family, c: Config): seq<Command> {
    BaseCommands(f, c) + LoopCommands(f, Visited(c))
  }

  const CLEANUP: seq<Command> := [Flush(RuleChain), Flush(SourceChain), Flush(DestChain), DeleteRule(PreChain, HOOK_SOURCE),
                                  DeleteRule(PostChain, HOOK_DEST), DeleteChain(RuleChain), DeleteChain(SourceChain),
                                  DeleteChain(DestChain)]

  // ------------------------------------------------------------------- setup from a clean table

  lemma {:induction false} RunConcat(t: Table, a: seq<Command>, b: seq<Command>)
    ensures RunAll(t, a + b) == RunAll(RunAll(t, a), b)
    ensures AllPermitted(t, a + b) <==> AllPermitted(t, a) && AllPermitted(RunAll(t, a), b)
    decreases |a|
  {
    if a == [] {
      assert a + b == b;
    } else {
      assert (a + b)[1..] == a[1..] + b;
      RunConcat(After(t, a[0]), a[1..], b);
    }
  }

  lemma {:induction false} RunAppends(t: Table, c: Chain, rules: seq<Rule>)
    requires c in t && forall i | 0 <= i < |rules| :: !rules[i].target.Jump?
    ensures RunAll(t, Appends(c, rules)) == t[c := t[c] + rules]
    ensures AllPermitted(t, Appends(c, rules))
    decreases |rules|
  {
    var cmds := Appends(c, rules);
    if rules == [] {
      assert t[c] + rules == t[c];
    } else {
      assert cmds[1..] == Appends(c, rules[1..]);
      assert t[c] + rules == (t[c] + [rules[0]]) + rules[1..];
      RunAppends(t[c := t[c] + [rules[0]]], c, rules[1..]);
    }
  }

  predicate Ready(t: Table) {
    SourceChain in t && DestChain in t && RuleChain in t
  }

  /** The table with the two device chains replaced. */
  function WithChains(t: Table, source: seq<Rule>, dest: seq<Rule>): Table {
    t[SourceChain := source][DestChain := dest]
  }

  lemma RunDevice(t: Table, f: Family, name: Option<Name>)
    requires Ready(t)
    ensures RunAll(t, DeviceCommands(f, name))
         == WithChains(t, [DropRule(f, name)] + t[SourceChain] + [JumpRule(true, name)], t[DestChain] + [JumpRule(false, name)])
    ensures AllPermitted(t, DeviceCommands(f, name))
  {
    var cmds := DeviceCommands(f, name);
    var t1 := After(t, cmds[0]);
    var t2 := After(t1, cmds[1]);
    assert cmds[1..] == [cmds[1], cmds[2]] && cmds[1..][1..] == [cmds[2]] && cmds[1..][1..][1..] == [];
    assert RunAll(t, cmds) == RunAll(t1, cmds[1..]) == RunAll(t2, [cmds[2]]) == After(t2, cmds[2]);
    assert AllPermitted(t1, cmds[1..]) by { assert AllPermitted(t2, [cmds[2]]); }
  }

  lemma {:induction false} RunLoop(t: Table, f: Family, names: seq<Option<Name>>)
    requires Ready(t)
    ensures RunAll(t, LoopCommands(f, names))
         == WithChains(t, Drops(f, names) + t[SourceChain] + Jumps(true, names), t[DestChain] + Jumps(false, names))
    ensures AllPermitted(t, LoopCommands(f, names))
    decreases |names|
  {
    hide DropRule, JumpRule, DeviceCommands;
    if names == [] {
      assert Drops(f, names) + t[SourceChain] + Jumps(true, names) == t[SourceChain];
      assert t[DestChain] + Jumps(false, names) == t[DestChain];
    } else {
      var init, last := names[..|names| - 1], names[|names| - 1];
      RunLoop(t, f, init);
      var u := RunAll(t, LoopCommands(f, init));
      RunDevice(u, f, last);
      RunConcat(t, LoopCommands(f, init), DeviceCommands(f, last));
      assert [DropRule(f, last)] + u[SourceChain] + [JumpRule(true, last)] == Drops(f, names) + t[SourceChain] + Jumps(true, names);
      assert u[DestChain] + [JumpRule(false, last)] == t[DestChain] + Jumps(false, names);
    }
  }

  /** The table once the five head commands have run on a clean one. */
  function Hooked(t: Table): Table
    requires Clean(t)
  {
    t[SourceChain := []][DestChain := []][PreChain := [HOOK_SOURCE] + t[PreChain]]
     [PostChain := [HOOK_DEST] + t[PostChain]][RuleChain := []]
  }

  lemma RunHead(t: Table)
    requires Clean(t)
    ensures RunAll(t, HEAD) == Hooked(t) && AllPermitted(t, HEAD)
  {
    var t1 := After(t, HEAD[0]);
    var t2 := After(t1, HEAD[1]);
    var t3 := After(t2, HEAD[2]);
    var t4 := After(t3, HEAD[3]);
    assert t2 == t[SourceChain := []][DestChain := []];
    assert t3 == t2[PreChain := [HOOK_SOURCE] + t[PreChain]];
    assert t4 == t3[PostChain := [HOOK_DEST] + t[PostChain]];
    assert Permits(t4, HEAD[4]) && After(t4, HEAD[4]) == Hooked(t);
    assert HEAD[4..] == [HEAD[4]] && HEAD[4..][1..] == [];
    assert HEAD[3..][1..] == HEAD[4..] && HEAD[2..][1..] == HEAD[3..] && HEAD[1..][1..] == HEAD[2..];
    assert RunAll(t4, HEAD[4..]) == After(t4, HEAD[4]) == Hooked(t);
    assert AllPermitted(t4, HEAD[4..]);
    assert RunAll(t3, HEAD[3..]) == Hooked(t) && AllPermitted(t3, HEAD[3..]);
    assert RunAll(t2, HEAD[2..]) == Hooked(t) && AllPermitted(t2, HEAD[2..]);
    assert RunAll(t1, HEAD[1..]) == Hooked(t) && AllPermitted(t1, HEAD[1..]);
  }

  lemma RunBase(t: Table, f: Family, c: Config)
    requires Clean(t)
    ensures RunAll(t, BaseCommands(f, c))
         == Hooked(t)[SourceChain := Returns(f, true)][DestChain := Returns(f, false)][RuleChain := QueueRules(c)]
    ensures AllPermitted(t, BaseCommands(f, c))
  {
    var a, b, d := Appends(SourceChain, Returns(f, true)), Appends(DestChain, Returns(f, false)), Appends(RuleChain, QueueRules(c));
    RunHead(t);
    var t1 := Hooked(t);
    RunAppends(t1, SourceChain, Returns(f, true));
    var t2 := t1[SourceChain := [] + Returns(f, true)];
    RunAppends(t2, DestChain, Returns(f, false));
    var t3 := t2[DestChain := [] + Returns(f, false)];
    RunAppends(t3, RuleChain, QueueRules(c));
    RunConcat(t2, b, d);
    RunConcat(t1, a, b + d);
    RunConcat(t, HEAD, a + (b + d));
    assert [] + Returns(f, true) == Returns(f, true) && [] + Returns(f, false) == Returns(f, false);
    assert [] + QueueRules(c) == QueueRules(c);
  }

  /** From a clean table no command is refused and the result is the intended one. */
  lemma {:induction false} SetupInstalls(t: Table, f: Family, c: Config)
    requires Clean(t)
    ensures AllPermitted(t, SetupCommands(f, c))
    ensures RunAll(t, SetupCommands(f, c)) == Installed(f, c, t)
  {
    RunBase(t, f, c);
    RunConcat(t, BaseCommands(f, c), LoopCommands(f, Visited(c)));
    RunLoop(RunAll(t, BaseCommands(f, c)), f, Visited(c));
  }
}
