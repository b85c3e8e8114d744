/** The setup and cleanup procedures themselves, editing the kernel's tables in place. */
module FirewallRules {
  import opened Common
  import opened Firewall
  import opened ChainTable
  import opened ChainCleanup
  import opened ChainRuns

  const IFNAMSIZ := 16

  /** What can go wrong when a command is run: it never starts, or it runs and its status is lost. */
  datatype Fault = Fine | NotRun | StatusLost

  /** Faults by command number; beyond the list all is well. */
  function FaultAt(faults: seq<Fault>, i: nat): Fault {
    if i < |faults| then faults[i] else Fine
  }

  predicate FineUpTo(faults: seq<Fault>, n: nat) {
    forall i | 0 <= i < n :: FaultAt(faults, i).Fine?
  }

  predicate NamesFit(c: Config) {
    c.all || forall i | 0 <= i < |c.ifaces| :: |c.ifaces[i]| < IFNAMSIZ
  }

  lemma BaseFirst(f: Family, c: Config)
    ensures var base, whole := BaseCommands(f, c), SetupCommands(f, c);
      |base| <= |whole| && whole[..|base|] == base == whole[0..|base|]
  {
  }

  lemma NothingRun(t: Table, cmds: seq<Command>)
    ensures RunAll(t, cmds[..0]) == t && AllPermitted(t, cmds[..0])
  {
  }

  lemma RunOneMore(t: Table, cmds: seq<Command>, i: nat)
    requires i < |cmds|
    ensures RunAll(t, cmds[..i + 1]) == After(RunAll(t, cmds[..i]), cmds[i])
    ensures AllPermitted(t, cmds) ==> Permits(RunAll(t, cmds[..i]), cmds[i])
    ensures AllPermitted(t, cmds[..i + 1]) <==> AllPermitted(t, cmds[..i]) && Permits(RunAll(t, cmds[..i]), cmds[i])
  {
    var rest := cmds[i..];
    assert cmds[..i + 1] == cmds[..i] + [cmds[i]] && cmds == cmds[..i] + rest;
    RunConcat(t, cmds[..i], [cmds[i]]);
    RunConcat(t, cmds[..i], rest);
    var u := RunAll(t, cmds[..i]);
    assert RunAll(After(u, cmds[i]), []) == After(u, cmds[i]);
    assert [cmds[i]][1..] == [];
  }

  lemma {:induction false} LoopPrefix(f: Family, names: seq<Option<Name>>, i: nat)
    requires i <= |names|
    ensures |LoopCommands(f, names)| == 3 * |names|
    ensures LoopCommands(f, names)[..3 * i] == LoopCommands(f, names[..i])
    decreases |names|
  {
    if i == |names| {
      assert names[..i] == names;
      if names != [] { LoopPrefix(f, names[..|names| - 1], 0); }
    } else {
      var init := names[..|names| - 1];
      LoopPrefix(f, init, i);
      assert init[..i] == names[..i];
    }
  }

  /** Where the commands of interface `i` start in the script. */
  function Position(f: Family, c: Config, i: nat): nat {
    |BaseCommands(f, c)| + 3 * i
  }

  lemma PositionEnds(f: Family, c: Config)
    ensures var whole := SetupCommands(f, c);
      && Position(f, c, 0) <= |whole| && whole[..Position(f, c, 0)] == BaseCommands(f, c)
      && Position(f, c, |Visited(c)|) == |whole|
  {
    LoopPrefix(f, Visited(c), 0);
  }

  lemma SliceBehind<T>(a: seq<T>, b: seq<T>, i: nat, n: nat)
    requires i <= n <= |b|
    ensures (a + b)[|a| + i..|a| + n] == b[i..n]
  {
  }

  lemma SliceOfTake<T>(s: seq<T>, a: seq<T>, b: seq<T>)
    requires |a| + |b| <= |s| && s[..|a| + |b|] == a + b
    ensures s[|a|..|a| + |b|] == b
  {
    assert s[|a|..|a| + |b|] == s[..|a| + |b|][|a|..];
  }

  lemma LoopAt(f: Family, names: seq<Option<Name>>, i: nat)
    requires i < |names|
    ensures 3 * i + 3 <= |LoopCommands(f, names)| && LoopCommands(f, names)[3 * i..3 * i + 3] == DeviceCommands(f, names[i])
  {
    LoopPrefix(f, names, i);
    LoopPrefix(f, names, i + 1);
    assert names[..i + 1][..i] == names[..i];
    var loop, before := LoopCommands(f, names), LoopCommands(f, names[..i]);
    assert LoopCommands(f, names[..i + 1]) == before + DeviceCommands(f, names[i]);
    assert |before| == 3 * i && |DeviceCommands(f, names[i])| == 3;
    hide LoopCommands, DeviceCommands;
    SliceOfTake(loop, before, DeviceCommands(f, names[i]));
  }

  lemma SetupAt(f: Family, c: Config, i: nat)
    requires i < |Visited(c)|
    ensures var cmds, at := SetupCommands(f, c), Position(f, c, i);
      at + 3 <= |cmds| && cmds[at..at + 3] == DeviceCommands(f, Visited(c)[i])
  {
    LoopAt(f, Visited(c), i);
    hide LoopCommands, DeviceCommands, BaseCommands;
    SliceBehind(BaseCommands(f, c), LoopCommands(f, Visited(c)), 3 * i, 3 * i + 3);
  }

  /** Command `j` of a script is permitted when its turn comes, and runs. */
  predicate Goes(start: Table, whole: seq<Command>, faults: seq<Fault>, j: nat)
    requires j < |whole|
  {
    FaultAt(faults, j).Fine? && Permits(RunAll(start, whole[..j]), whole[j])
  }

  predicate AllGo(start: Table, whole: seq<Command>, faults: seq<Fault>, n: nat)
    requires n <= |whole|
  {
    forall j | 0 <= j < n :: Goes(start, whole, faults, j)
  }

  /** The script stopped somewhere: all commands up to there were permitted and have run. */
  ghost predicate Stopped(start: Table, whole: seq<Command>, t: Table) {
    exists k :: 0 <= k <= |whole| && AllPermitted(start, whole[..k]) && t == RunAll(start, whole[..k])
  }

  lemma StoppedAt(start: Table, whole: seq<Command>, k: nat)
    requires k <= |whole| && AllPermitted(start, whole[..k])
    ensures Stopped(start, whole, RunAll(start, whole[..k]))
  {
  }

  /** The commands that were started at all. */
  function Ran(cmds: seq<Command>, faults: seq<Fault>): seq<Command> {
    if cmds == [] then []
    else
      var last := |cmds| - 1;
      Ran(cmds[..last], faults) + (if FaultAt(faults, last).NotRun? then [] else [cmds[last]])
  }

  predicate NoneLost(faults: seq<Fault>, n: nat) {
    forall i | 0 <= i < n :: !FaultAt(faults, i).NotRun?
  }

  lemma {:induction false} AllRan(cmds: seq<Command>, faults: seq<Fault>)
    requires NoneLost(faults, |cmds|)
    ensures Ran(cmds, faults) == cmds
  {
    if cmds != [] { AllRan(cmds[..|cmds| - 1], faults); }
  }

  lemma RanOneMore(t: Table, cmds: seq<Command>, faults: seq<Fault>, i: nat)
    requires i < |cmds|
    ensures RunAll(t, Ran(cmds[..i + 1], faults))
         == if FaultAt(faults, i).NotRun? then RunAll(t, Ran(cmds[..i], faults))
            else After(RunAll(t, Ran(cmds[..i], faults)), cmds[i])
  {
    var before, u := Ran(cmds[..i], faults), RunAll(t, Ran(cmds[..i], faults));
    assert cmds[..i + 1][..i] == cmds[..i] && before + [] == before;
    RunConcat(t, before, [cmds[i]]);
    assert RunAll(After(u, cmds[i]), []) == After(u, cmds[i]) && [cmds[i]][1..] == [];
  }

  /** However many cleanup commands fail to start, the table stays recoverable and others' rules stay as they were. */
  lemma {:induction false} PartialCleanup(t: Table, faults: seq<Fault>, n: nat)
    requires Leftover(t) && n <= |CLEANUP|
    ensures Leftover(RunAll(t, Ran(CLEANUP[..n], faults))) && Strip(RunAll(t, Ran(CLEANUP[..n], faults))) == Strip(t)
    ensures TargetsExist(t) ==> TargetsExist(RunAll(t, Ran(CLEANUP[..n], faults)))
  {
    hide Leftover, Strip, After;
    if n == 0 {
      assert Ran(CLEANUP[..0], faults) == [];
    } else {
      PartialCleanup(t, faults, n - 1);
      RanOneMore(t, CLEANUP, faults, n - 1);
      var u := RunAll(t, Ran(CLEANUP[..n - 1], faults));
      AnyCleanupStep(n - 1, u);
      if TargetsExist(u) { TargetsKept(u, CLEANUP[n - 1]); }
    }
  }

  /** When the table permits the whole script, only faults can stop it. */
  lemma OnlyFaultsStop(start: Table, whole: seq<Command>, faults: seq<Fault>)
    requires AllPermitted(start, whole)
    ensures AllGo(start, whole, faults, |whole|) <==> FineUpTo(faults, |whole|)
  {
    forall j | 0 <= j < |whole| ensures Goes(start, whole, faults, j) <==> FaultAt(faults, j).Fine? {
      RunOneMore(start, whole, j);
    }
  }

  /** The mangle table of one family, driven through iptables commands. */
  class Mangle {
    const family: Family
    var table: Table

    constructor (f: Family, t: Table)
      ensures family == f && table == t
    {
      family, table := f, t;
    }

    method Execute(cmd: Command, fault: Fault) returns (ok: bool)
      modifies this
      ensures table == if fault.NotRun? then old(table) else After(old(table), cmd)
      ensures ok == (fault.Fine? && Permits(old(table), cmd))
    {
      ok := fault.Fine? && Permits(table, cmd);
      if fault.NotRun? || !Permits(table, cmd) { return; }
      var c := cmd.chain;
      match cmd {
        case NewChain(_) => table := table[c := []];
        case Flush(_) => table := table[c := []];
        case DeleteChain(_) => table := table - {c};
        case Append(_, r) => table := table[c := table[c] + [r]];
        case InsertFirst(_, r) => table := table[c := [r] + table[c]];
        case DeleteRule(_, r) => table := table[c := Without(table[c], r)];
      }
    }

    /** Runs `script` from position `i`, stopping at the first failure. */
    method ExecuteAll(ghost start: Table, ghost whole: seq<Command>, i: nat, script: seq<Command>, faults: seq<Fault>)
      returns (ok: bool)
      requires i + |script| <= |whole| && whole[i..i + |script|] == script
      requires table == RunAll(start, whole[..i]) && AllPermitted(start, whole[..i])
      modifies this
      ensures ok <==> forall j | i <= j < i + |script| :: Goes(start, whole, faults, j)
      ensures ok ==> table == RunAll(start, whole[..i + |script|]) && AllPermitted(start, whole[..i + |script|])
      ensures Stopped(start, whole, table)
    {
      var n := 0;
      ok := true;
      while n < |script|
        invariant 0 <= n <= |script|
        invariant table == RunAll(start, whole[..i + n]) && AllPermitted(start, whole[..i + n])
        invariant forall j | i <= j < i + n :: Goes(start, whole, faults, j)
      {
        RunOneMore(start, whole, i + n);
        StoppedAt(start, whole, i + n);
        if Permits(table, script[n]) { StoppedAt(start, whole, i + n + 1); }
        assert whole[i + n] == whole[i..i + |script|][n] == script[n];
        ok := Execute(script[n], FaultAt(faults, i + n));
        assert ok == Goes(start, whole, faults, i + n);
        if !ok { return; }
        n := n + 1;
      }
      StoppedAt(start, whole, i + n);
    }

    /** Unhooks and deletes our chains, ignoring failures. When every command runs nothing of ours is
        left; in any case the table stays recoverable and the rules of others as they were. */
    method Cleanup(faults: seq<Fault>)
      modifies this
      ensures table == RunAll(old(table), Ran(CLEANUP, faults))
      ensures Leftover(old(table)) ==> Leftover(table) && Strip(table) == Strip(old(table))
      ensures Leftover(old(table)) && NoneLost(faults, |CLEANUP|) ==> table == Strip(old(table)) && Clean(table)
    {
      hide Leftover, Strip, Clean, Without;
      var i := 0;
      while i < |CLEANUP|
        invariant 0 <= i <= |CLEANUP|
        invariant table == RunAll(old(table), Ran(CLEANUP[..i], faults))
      {
        RanOneMore(old(table), CLEANUP, faults, i);
        var _ := Execute(CLEANUP[i], FaultAt(faults, i));
        i := i + 1;
      }
      assert CLEANUP[..i] == CLEANUP;
      if Leftover(old(table)) {
        PartialCleanup(old(table), faults, i);
        if NoneLost(faults, |CLEANUP|) {
          AllRan(CLEANUP, faults);
          CleanupStrips(old(table));
        }
      }
    }

    /** The three commands of one interface. */
    method DevicePass(ghost start: Table, c: Config, i: nat, faults: seq<Fault>) returns (ok: bool)
      requires i < |Visited(c)|
      requires 0 <= Position(family, c, i) <= |SetupCommands(family, c)|
      requires table == RunAll(start, SetupCommands(family, c)[..Position(family, c, i)])
      requires AllPermitted(start, SetupCommands(family, c)[..Position(family, c, i)])
      modifies this
      ensures Position(family, c, i + 1) <= |SetupCommands(family, c)|
      ensures ok <==> forall j | Position(family, c, i) <= j < Position(family, c, i + 1) ::
                        Goes(start, SetupCommands(family, c), faults, j)
      ensures ok ==> table == RunAll(start, SetupCommands(family, c)[..Position(family, c, i + 1)])
      ensures ok ==> AllPermitted(start, SetupCommands(family, c)[..Position(family, c, i + 1)])
      ensures Stopped(start, SetupCommands(family, c), table)
    {
      SetupAt(family, c, i);
      hide SetupCommands, Goes, RunAll, AllPermitted, Stopped;
      ok := ExecuteAll(start, SetupCommands(family, c), Position(family, c, i), DeviceCommands(family, Visited(c)[i]), faults);
    }

    /** One pass per interface, after the fixed commands. */
    method IfaceSetup(ghost start: Table, c: Config, faults: seq<Fault>) returns (ok: bool)
      requires |BaseCommands(family, c)| <= |SetupCommands(family, c)| && table == RunAll(start, BaseCommands(family, c))
      requires AllPermitted(start, BaseCommands(family, c))
      requires AllGo(start, SetupCommands(family, c), faults, |BaseCommands(family, c)|)
      modifies this
      ensures ok <==> NamesFit(c) && AllGo(start, SetupCommands(family, c), faults, |SetupCommands(family, c)|)
      ensures ok ==> table == RunAll(start, SetupCommands(family, c))
      ensures Stopped(start, SetupCommands(family, c), table)
    {
      var names := Visited(c);
      ghost var whole := SetupCommands(family, c);
      PositionEnds(family, c);
      hide SetupCommands, BaseCommands, LoopCommands, Goes, RunAll, AllPermitted, Stopped;
      StoppedAt(start, whole, Position(family, c, 0));
      var i := 0;
      while i < |names|
        invariant 0 <= i <= |names| && 0 <= Position(family, c, i) <= |whole|
        invariant table == RunAll(start, whole[..Position(family, c, i)]) && Stopped(start, whole, table)
        invariant AllPermitted(start, whole[..Position(family, c, i)])
        invariant AllGo(start, whole, faults, Position(family, c, i))
        invariant c.all || forall j | 0 <= j < i :: |c.ifaces[j]| < IFNAMSIZ
      {
        if !c.all && |c.ifaces[i]| >= IFNAMSIZ {
          ok := false;
          return;
        }
        ok := DevicePass(start, c, i, faults);
        if !ok { return; }
        i := i + 1;
      }
      assert whole[..|whole|] == whole;
      ok := true;
    }

    /** Clean first, then the fixed commands, then the interfaces; whatever the table was, the result
        is the script's effect or, on failure, the effect of a stretch of it that was all permitted. */
    method Setup(c: Config, cleaning: seq<Fault>, faults: seq<Fault>) returns (ok: bool)
      modifies this
      ensures var start, whole := RunAll(old(table), Ran(CLEANUP, cleaning)), SetupCommands(family, c);
        && (ok <==> NamesFit(c) && AllGo(start, whole, faults, |whole|))
        && (ok ==> table == RunAll(start, whole))
        && Stopped(start, whole, table)
    {
      hide Goes, SetupCommands, BaseCommands, RunAll, AllPermitted, Stopped, Ran, Leftover, Strip, Clean;
      Cleanup(cleaning);
      ghost var start := table;
      ghost var whole := SetupCommands(family, c);
      var base := BaseCommands(family, c);
      BaseFirst(family, c);
      NothingRun(start, whole);
      ok := ExecuteAll(start, whole, 0, base, faults);
      if ok {
        ok := IfaceSetup(start, c, faults);
      }
    }
  }
}
