/** Choice of back end, dual-stack setup, and the part of the main ladder that installs and
    removes the rules. */
module BackEnd {
  import opened Common
  import opened Firewall
  import opened ChainTable
  import opened ChainCleanup
  import opened ChainRuns
  import opened FirewallRules
  import opened NftRules
  import opened FirewallMeaning

  /** -f, -4, -6. */
  datatype Choice = Choice(skip: bool, v4: bool, v6: bool)

  /** Every table the program can touch. */
  datatype Net = Net(ipt4: Table, ipt6: Table, nft4: Option<Table>, nft6: Option<Table>)

  /** What the environment does to the cleaning commands of both families. */
  datatype Sweep = Sweep(v4: seq<Fault>, v6: seq<Fault>)

  /** What it does during one setup, which cleans first. */
  datatype Weather = Weather(nftWorks: bool, sweep: Sweep, faults4: seq<Fault>, faults6: seq<Fault>)

  /** The tables with everything of ours taken out of the chosen back end's families. */
  function Restored(o: Choice, iptables: bool, n: Net): Net {
    if o.skip then n
    else if iptables then
      n.(ipt4 := if o.v4 then Strip(n.ipt4) else n.ipt4, ipt6 := if o.v6 then Strip(n.ipt6) else n.ipt6)
    else
      n.(nft4 := if o.v4 then None else n.nft4, nft6 := if o.v6 then None else n.nft6)
  }

  /** What interrupted runs can leave in tables that the kernel keeps. */
  ghost predicate Recoverable(n: Net) {
    Leftover(n.ipt4) && Leftover(n.ipt6) && TargetsExist(n.ipt4) && TargetsExist(n.ipt6)
  }

  /** The tables after the chosen back end's cleaning commands, as far as they ran. */
  function Swept(o: Choice, iptables: bool, s: Sweep, n: Net): Net {
    if o.skip then n
    else if iptables then
      n.(ipt4 := if o.v4 then RunAll(n.ipt4, Ran(CLEANUP, s.v4)) else n.ipt4,
         ipt6 := if o.v6 then RunAll(n.ipt6, Ran(CLEANUP, s.v6)) else n.ipt6)
    else
      n.(nft4 := if o.v4 && !FaultAt(s.v4, 0).NotRun? then None else n.nft4,
         nft6 := if o.v6 && !FaultAt(s.v6, 0).NotRun? then None else n.nft6)
  }

  /** Every cleaning command that is asked for runs. */
  predicate NothingLost(o: Choice, iptables: bool, s: Sweep) {
    var n := if iptables then |CLEANUP| else 1;
    o.skip || ((o.v4 ==> NoneLost(s.v4, n)) && (o.v6 ==> NoneLost(s.v6, n)))
  }

  /** What is not chosen is not touched. */
  predicate SameElsewhere(o: Choice, iptables: bool, before: Net, now: Net) {
    && (o.skip || !iptables || !o.v4 ==> now.ipt4 == before.ipt4) && (o.skip || !iptables || !o.v6 ==> now.ipt6 == before.ipt6)
    && (o.skip || iptables || !o.v4 ==> now.nft4 == before.nft4) && (o.skip || iptables || !o.v6 ==> now.nft6 == before.nft6)
  }

  /** What a complete setup makes of swept tables, whatever they are. */
  predicate Built(o: Choice, iptables: bool, c: Config, swept: Net, now: Net) {
    if iptables then
      && (o.v4 ==> now.ipt4 == RunAll(swept.ipt4, SetupCommands(V4, c)))
      && (o.v6 ==> now.ipt6 == RunAll(swept.ipt6, SetupCommands(V6, c)))
    else
      && (o.v4 ==> now.nft4 == Some(ExtendAll(V4, Loaded(V4, c, swept.nft4), Visited(c))))
      && (o.v6 ==> now.nft6 == Some(ExtendAll(V6, Loaded(V6, c, swept.nft6), Visited(c))))
  }

  /** The chosen back end holds the complete rules for every chosen family. */
  predicate Active(o: Choice, iptables: bool, c: Config, before: Net, now: Net)
    requires Recoverable(before)
  {
    StrippedIsClean(before.ipt4);
    StrippedIsClean(before.ipt6);
    if iptables then
      && (o.v4 ==> now.ipt4 == Installed(V4, c, Strip(before.ipt4)))
      && (o.v6 ==> now.ipt6 == Installed(V6, c, Strip(before.ipt6)))
    else
      && (o.v4 ==> now.nft4 == Some(NftTable(V4, c)))
      && (o.v6 ==> now.nft6 == Some(NftTable(V6, c)))
  }

  /** When one family's setup completes on a clean table. */
  predicate Completes(f: Family, iptables: bool, c: Config, faults: seq<Fault>) {
    if iptables then NamesFit(c) && FineUpTo(faults, |SetupCommands(f, c)|)
    else RulesetFits(f, c) && AllTextsFit(f, Visited(c)) && FineUpTo(faults, 1 + 3 * |Visited(c)|)
  }

  /** When it completes on the table that cleaning has left. */
  predicate CompletesOn(f: Family, c: Config, faults: seq<Fault>, swept: Table) {
    NamesFit(c) && AllGo(swept, SetupCommands(f, c), faults, |SetupCommands(f, c)|)
  }

  /** When the whole setup succeeds, on any tables. */
  predicate Succeeds(o: Choice, iptables: bool, c: Config, w: Weather, before: Net) {
    var swept := Swept(o, iptables, w.sweep, before);
    || o.skip
    || (iptables && (o.v4 ==> CompletesOn(V4, c, w.faults4, swept.ipt4)) && (o.v6 ==> CompletesOn(V6, c, w.faults6, swept.ipt6)))
    || (!iptables && (o.v4 ==> Completes(V4, false, c, w.faults4)) && (o.v6 ==> Completes(V6, false, c, w.faults6)))
  }

  /** When it succeeds once cleaning has done its work. */
  predicate SucceedsClean(o: Choice, iptables: bool, c: Config, w: Weather) {
    || o.skip
    || ((o.v4 ==> Completes(V4, iptables, c, w.faults4)) && (o.v6 ==> Completes(V6, iptables, c, w.faults6)))
  }

  lemma StrippedIsClean(t: Table)
    requires Leftover(t)
    ensures Clean(Strip(t)) && Leftover(Strip(t)) && Strip(Strip(t)) == Strip(t)
  {
    CleanupStrips(t);
    CleanIsLeftover(Strip(t));
  }

  lemma {:induction false} TargetsRun(t: Table, cmds: seq<Command>)
    requires TargetsExist(t)
    ensures TargetsExist(RunAll(t, cmds))
    decreases |cmds|
  {
    if cmds != [] {
      TargetsKept(t, cmds[0]);
      TargetsRun(After(t, cmds[0]), cmds[1..]);
    }
  }

  lemma SweptTargets(t: Table, faults: seq<Fault>)
    requires TargetsExist(t)
    ensures TargetsExist(RunAll(t, Ran(CLEANUP, faults)))
  {
    hide *;
    TargetsRun(t, Ran(CLEANUP, faults));
  }

  lemma SetupIsComplete(f: Family, c: Config, faults: seq<Fault>, swept: Table)
    ensures CompletesOn(f, c, faults, swept) <==> NamesFit(c) && AllGo(swept, SetupCommands(f, c), faults, |SetupCommands(f, c)|)
  {
  }

  /** What the setup of a mangle table comes to on a table that can be recovered. */
  lemma MangleOutcome(f: Family, c: Config, cleaning: seq<Fault>, faults: seq<Fault>, before: Table, after: Table, ok: bool)
    requires Leftover(before) && TargetsExist(before)
    requires var swept := RunAll(before, Ran(CLEANUP, cleaning));
      && Stopped(swept, SetupCommands(f, c), after)
      && (ok <==> CompletesOn(f, c, faults, swept))
      && (ok ==> after == RunAll(swept, SetupCommands(f, c)))
    ensures Leftover(after) && TargetsExist(after) && Strip(after) == Strip(before) && Clean(Strip(after))
    ensures ok ==> after == Installed(f, c, Strip(before))
    ensures NoneLost(cleaning, |CLEANUP|) ==> (ok <==> Completes(f, true, c, faults))
  {
    var swept, whole := RunAll(before, Ran(CLEANUP, cleaning)), SetupCommands(f, c);
    assert CLEANUP[..|CLEANUP|] == CLEANUP;
    PartialCleanup(before, cleaning, |CLEANUP|);
    StrippedIsClean(before);
    var k :| 0 <= k <= |whole| && AllPermitted(swept, whole[..k]) && after == RunAll(swept, whole[..k]);
    PermittedPrefix(swept, f, c, k);
    TargetsRun(swept, whole[..k]);
    if ok { WholeWent(f, c, faults, swept); }
    if NoneLost(cleaning, |CLEANUP|) {
      AllRan(CLEANUP, cleaning);
      CleanupStrips(before);
      SetupInstalls(swept, f, c);
      OnlyFaultsStop(swept, whole, faults);
    }
    hide *;
  }

  /** When every command went through, the table had been clean and now holds the rules. */
  lemma WholeWent(f: Family, c: Config, faults: seq<Fault>, swept: Table)
    requires Leftover(swept) && TargetsExist(swept) && CompletesOn(f, c, faults, swept)
    ensures Clean(swept) && Strip(swept) == swept && RunAll(swept, SetupCommands(f, c)) == Installed(f, c, swept)
  {
    var whole := SetupCommands(f, c);
    AllWent(swept, whole, faults, |whole|);
    assert whole[..|whole|] == whole;
    PermittedPrefix(swept, f, c, |whole|);
    CleanIsLeftover(swept);
    SetupInstalls(swept, f, c);
  }

  lemma {:induction false} AllWent(t: Table, whole: seq<Command>, faults: seq<Fault>, n: nat)
    requires n <= |whole| && AllGo(t, whole, faults, n)
    ensures AllPermitted(t, whole[..n])
  {
    if n == 0 {
      NothingRun(t, whole);
    } else {
      AllWent(t, whole, faults, n - 1);
      assert Goes(t, whole, faults, n - 1);
      RunOneMore(t, whole, n - 1);
    }
  }

  /** While the rules are active, the chosen back end gives every packet the policy's verdict;
      under iptables, what the policy lets through is judged by the unrelated rules as before. */
  lemma {:induction false} ActiveMeansPolicy(o: Choice, iptables: bool, c: Config, before: Net, now: Net, f: Family, hook: Hook,
                                             p: Packet, d: nat)
    requires Recoverable(before) && Active(o, iptables, c, before, now) && d > 1
    requires if f.V4? then o.v4 else o.v6
    requires BuiltInsUncalled(Strip(if f.V4? then before.ipt4 else before.ipt6))
    ensures iptables ==>
      var t, clean := if f.V4? then now.ipt4 else now.ipt6, Strip(if f.V4? then before.ipt4 else before.ipt6);
      && BaseChain(hook) in t && BaseChain(hook) in clean
      && Eval(f, t, t[BaseChain(hook)], p, d)
         == (if Policy(f, c, hook, p).Through? then Eval(f, clean, clean[BaseChain(hook)], p, d) else Policy(f, c, hook, p))
    ensures !iptables ==>
      var t := if f.V4? then now.nft4 else now.nft6;
      t.Some? && OwnChain(hook) in t.value && Eval(f, t.value, t.value[OwnChain(hook)], p, d) == Policy(f, c, hook, p)
  {
    hide Leftover, Strip, Eval, Policy, BuiltInsUncalled;
    StrippedIsClean(before.ipt4);
    StrippedIsClean(before.ipt6);
    if iptables {
      IptablesMeansPolicy(f, c, Strip(if f.V4? then before.ipt4 else before.ipt6), hook, p, d);
    } else {
      NftMeansPolicy(f, c, hook, p, d);
    }
  }

  class NetFilter {
    const ip4: Mangle
    const ip6: Mangle
    const nft4: Ruleset
    const nft6: Ruleset
    var useIptables: bool

    ghost predicate Valid() {
      ip4 != ip6 && nft4 != nft6 && ip4.family == V4 && ip6.family == V6 && nft4.family == V4 && nft6.family == V6
    }

    ghost function Now(): Net
      reads ip4, ip6, nft4, nft6
    {
      Net(ip4.table, ip6.table, nft4.table, nft6.table)
    }

    constructor (a: Mangle, b: Mangle, c: Ruleset, d: Ruleset, iptables: bool)
      requires a != b && c != d && a.family == V4 && b.family == V6 && c.family == V4 && d.family == V6
      ensures Valid() && ip4 == a && ip6 == b && nft4 == c && nft6 == d && useIptables == iptables
    {
      ip4, ip6, nft4, nft6, useIptables := a, b, c, d, iptables;
    }

    /** Setup of one family's mangle table, with what the caller needs on success and on failure.
        Success is trustworthy even when cleaning commands were lost. */
    method SetupMangle(m: Mangle, c: Config, cleaning: seq<Fault>, faults: seq<Fault>) returns (ok: bool)
      modifies m
      ensures var swept := RunAll(old(m.table), Ran(CLEANUP, cleaning));
        && (ok <==> CompletesOn(m.family, c, faults, swept))
        && (ok ==> m.table == RunAll(swept, SetupCommands(m.family, c)))
      ensures Leftover(old(m.table)) && TargetsExist(old(m.table)) ==>
        && Leftover(m.table) && TargetsExist(m.table) && Strip(m.table) == Strip(old(m.table)) && Clean(Strip(m.table))
        && (ok ==> m.table == Installed(m.family, c, Strip(old(m.table))))
        && (NoneLost(cleaning, |CLEANUP|) ==> (ok <==> Completes(m.family, true, c, faults)))
    {
      hide *;
      ghost var before := m.table;
      ok := m.Setup(c, cleaning, faults);
      SetupIsComplete(m.family, c, faults, RunAll(before, Ran(CLEANUP, cleaning)));
      if Leftover(before) && TargetsExist(before) { MangleOutcome(m.family, c, cleaning, faults, before, m.table, ok); }
    }

    method Setup(o: Choice, c: Config, w: Weather) returns (ok: bool)
      requires Valid()
      modifies this, ip4, ip6, nft4, nft6
      ensures useIptables == (old(useIptables) || (!o.skip && !w.nftWorks))
      ensures ok <==> Succeeds(o, useIptables, c, w, old(Now()))
      ensures SameElsewhere(o, useIptables, old(Now()), Now())
      ensures ok && !o.skip ==> Built(o, useIptables, c, Swept(o, useIptables, w.sweep, old(Now())), Now())
      ensures Recoverable(old(Now())) ==>
        && Recoverable(Now()) && Restored(o, useIptables, Now()) == Restored(o, useIptables, old(Now()))
        && (ok && !o.skip && (useIptables || NothingLost(o, false, w.sweep)) ==> Active(o, useIptables, c, old(Now()), Now()))
        && (NothingLost(o, useIptables, w.sweep) ==> (ok <==> SucceedsClean(o, useIptables, c, w)))
    {
      hide Leftover, Strip, Clean, Installed, NftTable, NftBase, ExtendAll, Loaded, NamesFit, AllTextsFit, RulesetFits, FineUpTo, AllGo,
           RunAll, Ran, TargetsExist, SetupCommands, Visited;
      if o.skip { return true; }
      if !useIptables && !w.nftWorks { useIptables := true; }
      ok := true;
      if useIptables {
        if o.v4 {
          ok := SetupMangle(ip4, c, w.sweep.v4, w.faults4);
          if !ok { return; }
        }
        if o.v6 {
          ok := SetupMangle(ip6, c, w.sweep.v6, w.faults6);
        }
      } else {
        if o.v4 {
          ok := nft4.Setup(c, FaultAt(w.sweep.v4, 0), w.faults4);
          if !ok { return; }
        }
        if o.v6 {
          ok := nft6.Setup(c, FaultAt(w.sweep.v6, 0), w.faults6);
        }
      }
    }

    method Cleanup(o: Choice, s: Sweep)
      requires Valid()
      modifies ip4, ip6, nft4, nft6
      ensures Now() == Swept(o, useIptables, s, old(Now()))
      ensures Recoverable(old(Now())) ==>
        && Recoverable(Now()) && Restored(o, useIptables, Now()) == Restored(o, useIptables, old(Now()))
        && (NothingLost(o, useIptables, s) ==> Now() == Restored(o, useIptables, old(Now())))
    {
      hide Leftover, Strip, Clean, RunAll, Ran, TargetsExist;
      ghost var before := Now();
      if o.skip { return; }
      if useIptables {
        if o.v4 { ip4.Cleanup(s.v4); }
        if o.v6 { ip6.Cleanup(s.v6); }
        if Recoverable(before) {
          SweptTargets(before.ipt4, s.v4);
          SweptTargets(before.ipt6, s.v6);
        }
      } else {
        if o.v4 { nft4.Cleanup(FaultAt(s.v4, 0)); }
        if o.v6 { nft6.Cleanup(FaultAt(s.v6, 0)); }
      }
    }

    /** From rule setup to rule cleanup in main: whether setup fails halfway, the signal handlers
        fail, or the queue loop ends, the chosen back end is left without a trace of us as far as the
        closing cleanup's commands run, the rules of others stay as they were, and the other back end
        is untouched. */
    method Serve(o: Choice, c: Config, w: Weather, closing: Sweep, signalsOk: bool) returns (served: bool)
      requires Valid()
      modifies this, ip4, ip6, nft4, nft6
      ensures useIptables == (old(useIptables) || (!o.skip && !w.nftWorks))
      ensures served <==> signalsOk && Succeeds(o, useIptables, c, w, old(Now()))
      ensures SameElsewhere(o, useIptables, old(Now()), Now())
      ensures Recoverable(old(Now())) ==>
        && Recoverable(Now()) && Restored(o, useIptables, Now()) == Restored(o, useIptables, old(Now()))
        && (NothingLost(o, useIptables, closing) ==> Now() == Restored(o, useIptables, old(Now())))
    {
      hide Leftover, Strip, Succeeds, RunAll, Ran, TargetsExist;
      var ok := Setup(o, c, w);
      served := ok && signalsOk;
      Cleanup(o, closing);
    }
  }
}
