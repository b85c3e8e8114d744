/** Runs of setup and cleanup interleaved with other people's commands. */
module ChainRuns {
  import opened Common
  import opened Firewall
  import opened ChainTable
  import opened ChainCleanup

  datatype Step = Ours(cmd: Command) | Theirs(cmd: Command)

  function RunMixed(t: Table, steps: seq<Step>): Table
    decreases |steps|
  {
    if steps == [] then t else RunMixed(After(t, steps[0].cmd), steps[1..])
  }

  function OurPart(steps: seq<Step>): seq<Command> {
    if steps == [] then [] else (if steps[0].Ours? then [steps[0].cmd] else []) + OurPart(steps[1..])
  }

  function TheirPart(steps: seq<Step>): seq<Command> {
    if steps == [] then [] else (if steps[0].Theirs? then [steps[0].cmd] else []) + TheirPart(steps[1..])
  }

  /** The others leave our chains alone. */
  predicate Polite(steps: seq<Step>) {
    forall i | 0 <= i < |steps| :: steps[i].Theirs? ==> Foreign(steps[i].cmd)
  }

  // ------------------------------------------------------------------- setup commands

  /** A command that only creates or fills a chain of ours. */
  predicate Inner(cmd: Command) {
    && Own(cmd.chain)
    && (cmd.NewChain? || cmd.Append? || cmd.InsertFirst?)
    && ((cmd.Append? || cmd.InsertFirst?) && cmd.rule.target.Jump? ==> Own(cmd.rule.target.chain))
  }

  predicate AllInner(cmds: seq<Command>) {
    forall i | 0 <= i < |cmds| :: Inner(cmds[i])
  }

  lemma {:induction false} LoopIsInner(f: Family, names: seq<Option<Name>>)
    ensures AllInner(LoopCommands(f, names))
    decreases |names|
  {
    if names != [] { LoopIsInner(f, names[..|names| - 1]); }
  }

  lemma SetupShape(f: Family, c: Config)
    ensures |SetupCommands(f, c)| >= 5 && SetupCommands(f, c)[..5] == HEAD
    ensures AllInner(SetupCommands(f, c)[5..])
  {
    var a, b, d := Appends(SourceChain, Returns(f, true)), Appends(DestChain, Returns(f, false)), Appends(RuleChain, QueueRules(c));
    var loop := LoopCommands(f, Visited(c));
    LoopIsInner(f, Visited(c));
    assert AllInner(a) && AllInner(b) && AllInner(d);
    assert SetupCommands(f, c)[5..] == a + b + d + loop;
  }

  lemma InnerStep(t: Table, cmd: Command)
    requires Leftover(t) && Inner(cmd)
    ensures Leftover(After(t, cmd)) && Strip(After(t, cmd)) == Strip(t)
    ensures After(t, cmd)[PreChain] == t[PreChain] && After(t, cmd)[PostChain] == t[PostChain]
  {
    var c := cmd.chain;
    var u := After(t, cmd);
    if c in t { assert CallsOnlyOwn(t[c]); }
    assert c in u ==> CallsOnlyOwn(u[c]);
    assert forall k | k != c :: (k in u <==> k in t) && (k in t ==> u[k] == t[k]);
    hide After;
  }

  lemma HookedRules(rules: seq<Rule>, hook: Rule)
    requires NoOwnJump(rules) && OwnJump(hook)
    ensures AtMostOne([hook] + rules, hook) && Kept([hook] + rules) == Kept(rules)
  {
    KeptAppend([hook], rules);
    assert Kept([hook]) == [];
  }

  lemma BuiltInUpdate(t: Table, c: Chain, rules: seq<Rule>)
    requires Leftover(t)
    requires (c == PreChain && AtMostOne(rules, HOOK_SOURCE)) || (c == PostChain && AtMostOne(rules, HOOK_DEST))
    ensures Leftover(t[c := rules])
  {
    hide AtMostOne;
  }

  lemma HookStep(t: Table, c: Chain, hook: Rule)
    requires Leftover(t) && c in t && NoOwnJump(t[c])
    requires (c == PreChain && hook == HOOK_SOURCE) || (c == PostChain && hook == HOOK_DEST)
    ensures Leftover(After(t, InsertFirst(c, hook))) && Strip(After(t, InsertFirst(c, hook))) == Strip(t)
  {
    HookedRules(t[c], hook);
    BuiltInUpdate(t, c, [hook] + t[c]);
    StripUpdate(t, c, [hook] + t[c]);
    hide AtMostOne, Kept, Strip, Leftover, NoOwnJump;
  }

  /** How far the setup script has got. */
  predicate Prepared(n: nat, t: Table) {
    (n <= 2 ==> PreChain in t && NoOwnJump(t[PreChain])) && (n <= 3 ==> PostChain in t && NoOwnJump(t[PostChain]))
  }

  lemma SetupStep(f: Family, c: Config, n: nat, t: Table)
    requires n < |SetupCommands(f, c)| && Leftover(t) && Prepared(n, t)
    ensures Leftover(After(t, SetupCommands(f, c)[n])) && Strip(After(t, SetupCommands(f, c)[n])) == Strip(t)
    ensures Prepared(n + 1, After(t, SetupCommands(f, c)[n]))
  {
    var cmds := SetupCommands(f, c);
    SetupShape(f, c);
    hide SetupCommands, Strip, AtMostOne, Unhooked, OwnClosed;
    assert n < 5 ==> cmds[n] == cmds[..5][n] == HEAD[n];
    if n == 2 || n == 3 {
      HookStep(t, cmds[n].chain, cmds[n].rule);
    } else {
      if n >= 5 { assert cmds[n] == cmds[5..][n - 5]; }
      InnerStep(t, cmds[n]);
    }
  }

  // ------------------------------------------------------------------- interleavings

  lemma {:induction false} MixedConcat(t: Table, a: seq<Step>, b: seq<Step>)
    ensures RunMixed(t, a + b) == RunMixed(RunMixed(t, a), b)
    ensures TheirPart(a + b) == TheirPart(a) + TheirPart(b)
    decreases |a|
  {
    if a == [] {
      assert a + b == b;
    } else {
      assert (a + b)[1..] == a[1..] + b;
      MixedConcat(After(t, a[0].cmd), a[1..], b);
    }
  }

  /** Any stretch of setup keeps the table recoverable and shows the others nothing. */
  lemma {:induction false} MixedSetup(t: Table, f: Family, c: Config, steps: seq<Step>, n: nat, k: nat)
    requires Leftover(t) && Polite(steps) && n <= k <= |SetupCommands(f, c)|
    requires OurPart(steps) == SetupCommands(f, c)[n..k] && Prepared(n, t)
    ensures Leftover(RunMixed(t, steps))
    ensures Strip(RunMixed(t, steps)) == RunAll(Strip(t), TheirPart(steps))
    decreases |steps|
  {
    hide Leftover, Strip, SetupCommands, Foreign, After;
    if steps != [] {
      var rest := steps[1..];
      assert forall i | 0 <= i < |rest| :: rest[i] == steps[i + 1];
      var u := After(t, steps[0].cmd);
      if steps[0].Ours? {
        assert steps[0].cmd == SetupCommands(f, c)[n..k][0];
        assert OurPart(rest) == OurPart(steps)[1..] == SetupCommands(f, c)[n + 1..k];
        SetupStep(f, c, n, t);
        MixedSetup(u, f, c, rest, n + 1, k);
        assert TheirPart(steps) == [] + TheirPart(rest) == TheirPart(rest);
      } else {
        ForeignKeepsPrepared(n, t, steps[0].cmd);
        ForeignCommutes(t, steps[0].cmd);
        MixedSetup(u, f, c, rest, n, k);
        assert TheirPart(steps)[1..] == TheirPart(rest);
      }
    }
  }

  lemma ForeignKeepsPrepared(n: nat, t: Table, cmd: Command)
    requires Leftover(t) && Foreign(cmd) && Prepared(n, t)
    ensures Leftover(After(t, cmd)) && Prepared(n, After(t, cmd))
  {
    ForeignKeepsLeftover(t, cmd);
    ForeignKeepsBuiltIns(t, cmd);
  }

  /** A complete cleanup leaves exactly the others' work. */
  lemma {:induction false} MixedCleanup(t: Table, steps: seq<Step>, n: nat)
    requires Leftover(t) && Polite(steps) && n <= |CLEANUP|
    requires OurPart(steps) == CLEANUP[n..] && Cleaned(n, t)
    ensures Clean(RunMixed(t, steps))
    ensures RunMixed(t, steps) == RunAll(Strip(t), TheirPart(steps))
    decreases |steps|
  {
    hide Leftover, Strip, Foreign, After, Clean, Cleaned;
    if steps == [] {
      assert n == 8;
      CleanedIsStripped(t);
    } else {
      var rest := steps[1..];
      assert forall i | 0 <= i < |rest| :: rest[i] == steps[i + 1];
      var u := After(t, steps[0].cmd);
      if steps[0].Ours? {
        assert steps[0].cmd == CLEANUP[n..][0];
        assert OurPart(rest) == OurPart(steps)[1..] == CLEANUP[n + 1..];
        CleanupStep(n, t);
        MixedCleanup(u, rest, n + 1);
        assert TheirPart(steps) == [] + TheirPart(rest) == TheirPart(rest);
      } else {
        ForeignKeepsLeftover(t, steps[0].cmd);
        ForeignKeepsCleaned(n, t, steps[0].cmd);
        ForeignCommutes(t, steps[0].cmd);
        MixedCleanup(u, rest, n);
        assert TheirPart(steps)[1..] == TheirPart(rest);
      }
    }
  }

  /** Setup stopped after any number of its commands and then cleaned up, with foreign commands
      interleaved anywhere, amounts to the foreign commands alone, even from a table that an
      earlier run left unfinished. */
  lemma {:induction false} CleanupUndoesSetup(t: Table, f: Family, c: Config, k: nat,
                                              first: seq<Step>, during: seq<Step>, last: seq<Step>)
    requires Leftover(t) && Polite(first) && Polite(during) && Polite(last) && k <= |SetupCommands(f, c)|
    requires OurPart(first) == CLEANUP && OurPart(during) == SetupCommands(f, c)[..k] && OurPart(last) == CLEANUP
    ensures Leftover(RunMixed(t, first + during))
    ensures Clean(RunMixed(t, first + during + last))
    ensures RunMixed(t, first + during + last) == RunAll(Strip(t), TheirPart(first + during + last))
  {
    var t1 := RunMixed(t, first);
    MixedCleanup(t, first, 0);
    CleanIsLeftover(t1);
    var t2 := RunMixed(t1, during);
    assert SetupCommands(f, c)[0..k] == SetupCommands(f, c)[..k];
    MixedSetup(t1, f, c, during, 0, k);
    MixedCleanup(t2, last, 0);
    MixedConcat(t, first, during);
    MixedConcat(t, first + during, last);
    RunConcat(Strip(t), TheirPart(first), TheirPart(during));
    RunConcat(Strip(t), TheirPart(first) + TheirPart(during), TheirPart(last));
  }

  lemma CleanIsLeftover(t: Table)
    requires Clean(t)
    ensures Leftover(t) && Strip(t) == t
  {
    forall k | k in t ensures Kept(t[k]) == t[k] { KeptAll(t[k]); }
    assert Strip(t) == t;
  }

  function Alone(cmds: seq<Command>): seq<Step> {
    seq(|cmds|, i requires 0 <= i < |cmds| => Ours(cmds[i]))
  }

  lemma {:induction false} AloneIsRun(t: Table, cmds: seq<Command>)
    ensures RunMixed(t, Alone(cmds)) == RunAll(t, cmds)
    ensures OurPart(Alone(cmds)) == cmds && TheirPart(Alone(cmds)) == [] && Polite(Alone(cmds))
    decreases |cmds|
  {
    if cmds != [] {
      assert Alone(cmds)[1..] == Alone(cmds[1..]);
      AloneIsRun(After(t, cmds[0]), cmds[1..]);
    }
  }

  /** Cleanup strips our rules and nothing else, and running it again changes nothing. */
  lemma {:induction false} CleanupStrips(t: Table)
    requires Leftover(t)
    ensures RunAll(t, CLEANUP) == Strip(t) && Clean(Strip(t))
    ensures RunAll(RunAll(t, CLEANUP), CLEANUP) == RunAll(t, CLEANUP)
  {
    hide Leftover, Strip, Clean;
    AloneIsRun(t, CLEANUP);
    MixedCleanup(t, Alone(CLEANUP), 0);
    var u := Strip(t);
    CleanIsLeftover(u);
    AloneIsRun(u, CLEANUP);
    MixedCleanup(u, Alone(CLEANUP), 0);
  }

  /** The commands that create chains are only permitted where the chains do not exist. */
  lemma CreatesMissing(t: Table, cmds: seq<Command>)
    requires AllPermitted(t, cmds)
    ensures |cmds| >= 2 && cmds[0] == HEAD[0] && cmds[1] == HEAD[1] ==> SourceChain !in t && DestChain !in t
    ensures |cmds| >= 5 && cmds[..5] == HEAD ==> RuleChain !in t
  {
    if |cmds| >= 2 && cmds[0] == HEAD[0] && cmds[1] == HEAD[1] {
      var t1, c1 := After(t, cmds[0]), cmds[1..];
      assert AllPermitted(t1, c1) && c1[0] == cmds[1];
      if |cmds| >= 5 && cmds[..5] == HEAD {
        var t2, c2 := After(t1, c1[0]), c1[1..];
        var t3, c3 := After(t2, c2[0]), c2[1..];
        var t4, c4 := After(t3, c3[0]), c3[1..];
        assert cmds[..5][2] == cmds[2] == c2[0] && cmds[..5][3] == cmds[3] == c3[0] && cmds[..5][4] == cmds[4] == c4[0];
        assert AllPermitted(t2, c2) && AllPermitted(t3, c3) && AllPermitted(t4, c4);
      }
    }
  }

  /** Where no chain of ours exists, nothing jumps to one. */
  lemma NothingHooked(t: Table)
    requires Leftover(t) && TargetsExist(t)
    ensures SourceChain !in t ==> NoOwnJump(t[PreChain])
    ensures DestChain !in t ==> NoOwnJump(t[PostChain])
  {
    forall i | 0 <= i < |t[PreChain]| && OwnJump(t[PreChain][i]) ensures SourceChain in t {
      assert Calls(t[PreChain], SourceChain);
      assert Referenced(t, SourceChain);
    }
    forall i | 0 <= i < |t[PostChain]| && OwnJump(t[PostChain][i]) ensures DestChain in t {
      assert Calls(t[PostChain], DestChain);
      assert Referenced(t, DestChain);
    }
  }

  /** Setup that stops at its first refused command never makes things worse, even over a table that
      cleaning has not reached: the stretch it got through leaves the table recoverable and others'
      rules alone, and when all of it went through the table had been clean. */
  lemma {:induction false} PermittedPrefix(t: Table, f: Family, c: Config, k: nat)
    requires Leftover(t) && TargetsExist(t) && k <= |SetupCommands(f, c)| && AllPermitted(t, SetupCommands(f, c)[..k])
    ensures Leftover(RunAll(t, SetupCommands(f, c)[..k])) && Strip(RunAll(t, SetupCommands(f, c)[..k])) == Strip(t)
    ensures k == |SetupCommands(f, c)| ==> Clean(t)
  {
    var cmds, head := SetupCommands(f, c)[..k], SetupCommands(f, c)[..5];
    SetupShape(f, c);
    assert k >= 1 ==> cmds[0] == head[0] == HEAD[0];
    assert k >= 2 ==> cmds[1] == head[1] == HEAD[1];
    assert k >= 5 ==> cmds[..5] == head;
    CreatesMissing(t, cmds);
    NothingHooked(t);
    if k >= 2 {
      AloneIsRun(t, cmds);
      assert SetupCommands(f, c)[0..k] == cmds;
      MixedSetup(t, f, c, Alone(cmds), 0, k);
      if k == |SetupCommands(f, c)| { NothingOfOurs(t); }
    } else if k == 1 {
      InnerStep(t, cmds[0]);
      assert cmds[1..] == [];
    }
  }

  lemma NothingOfOurs(t: Table)
    requires Leftover(t) && NoOwnJump(t[PreChain]) && NoOwnJump(t[PostChain])
    requires SourceChain !in t && DestChain !in t && RuleChain !in t
    ensures Clean(t)
  {
  }

  /** Setup over what any earlier, differently configured prefix left behind gives the same table
      as setup from clean. */
  lemma {:induction false} SetupOverLeftovers(t: Table, f: Family, earlier: Config, k: nat, c: Config)
    requires Clean(t) && k <= |SetupCommands(f, earlier)|
    ensures RunAll(RunAll(t, SetupCommands(f, earlier)[..k]), CLEANUP + SetupCommands(f, c)) == Installed(f, c, t)
  {
    var cmds := SetupCommands(f, earlier)[..k];
    CleanIsLeftover(t);
    AloneIsRun(t, cmds);
    assert SetupCommands(f, earlier)[0..k] == cmds;
    MixedSetup(t, f, earlier, Alone(cmds), 0, k);
    var u := RunAll(t, cmds);
    CleanupStrips(u);
    RunConcat(u, CLEANUP, SetupCommands(f, c));
    SetupInstalls(t, f, c);
  }
}
