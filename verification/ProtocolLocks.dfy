/** Who holds which lock, and who waits for whom. */
module ProtocolLocks {
  import opened Common
  import opened Lifecycle
  import opened Protocol
  import opened ProtocolInvariant
  import opened ProtocolPreservation
  import opened ProtocolLocal

  /** Mutual exclusion and balance: the flock of a service is held exactly by the
      process whose re-entrancy depth is positive for it, a process is never inside two
      services, and whoever has ended, on whatever path, holds nothing. */
  lemma LockDiscipline(states: seq<Sys>, events: seq<Event>, i: nat, a: Pid, b: Pid, s: Service)
    requires IsRun(states, events) && i < |states| && a in states[i].procs && b in states[i].procs
    ensures states[i].procs[a].locked == Some(s) <==> s in states[i].flock && states[i].flock[s] == a
    ensures states[i].procs[a].depth > 0 <==> states[i].procs[a].locked.Some?
    ensures states[i].procs[a].locked == Some(s) && states[i].procs[b].locked == Some(s) ==> a == b
    ensures s in states[i].flock && states[i].flock[s] == a ==> forall o | o in states[i].flock && states[i].flock[o] == a :: o == s
    ensures |states[i].procs[a].todo| == 1 ==> HeldBy(states[i].procs[a]).After(states[i].procs[a].todo[0]).depth == 0
    ensures forall o | o in states[i].flock :: states[i].flock[o] in states[i].procs && states[i].procs[states[i].flock[o]].locked == Some(o)
    ensures forall l | l in states[i].procd :: states[i].procd[l] in states[i].procs && LockOf(states[i].procs[states[i].procd[l]].kind) == l
  {
    hide SvcOk;
    Reachable(states, events, i);
    assert ProcOk(states[i], states[i].procs[a]) && ProcOk(states[i], states[i].procs[b]);
    TypedTail(states[i], states[i].procs[a]);
    if |states[i].procs[a].todo| == 1 { assert states[i].procs[a].todo[1..] == []; }
  }

  // ------------------------------------------------------- who waits for whom

  /** `a` cannot go on before `b` gives a lock back or ends. */
  predicate WaitsFor(g: Sys, a: Pid, b: Pid) {
    a in g.procs && b in g.procs && g.procs[a].todo != [] &&
    match g.procs[a].todo[0]
    case TakeProcd(lock) => lock in g.procd && g.procd[lock] == b
    case Acquire(s) => g.procs[a].locked != Some(s) && s in g.flock && g.flock[s] == b
    case Join(child) => child == b
    case _ => false
  }

  /** The order in which locks are taken, innermost first: the lifecycle flock, the service's procd
      lock, the command a scheduler waits for, the scheduler's procd lock. */
  function Rank(g: Sys, a: Pid): nat {
    if CanRun(g, a) || a !in g.procs || g.procs[a].todo == [] then 0
    else
      match g.procs[a].todo[0]
      case Acquire(_) => 1
      case TakeProcd(ServiceLock(_)) => 2
      case Join(_) => 3
      case TakeProcd(SchedulerLock) => 4
      case _ => 0
  }

  /** Only a process that waits for another one cannot run. */
  lemma BlockedWaits(g: Sys, a: Pid)
    requires Inv(g) && a in g.procs
    ensures CanRun(g, a) <==> !exists b :: WaitsFor(g, a, b)
  {
    hide SvcOk, Typed, OpTyped, HeadOk, PlanOk;
    assert ProcOk(g, g.procs[a]);
    if !CanRun(g, a) {
      var op := g.procs[a].todo[0];
      var b := if op.TakeProcd? then g.procd[op.lock] else if op.Acquire? then g.flock[op.s] else op.child;
      assert WaitsFor(g, a, b);
    }
  }

  /** Every wait goes down in the order of the locks. */
  lemma WaitsDescend(g: Sys, a: Pid, b: Pid)
    requires Inv(g) && WaitsFor(g, a, b)
    ensures Rank(g, b) < Rank(g, a)
  {
    hide SvcOk, LocksOk, ProcOk, Typed;
    var p, q := g.procs[a], g.procs[b];
    assert ProcOk(g, p) && ProcOk(g, q);
    TypedTail(g, p);
    TypedTail(g, q);
    ProcParts(g, p);
    assert OpOk(g, p, p.todo[0]);
    HolderHolds(g);
  }

  lemma HolderHolds(g: Sys)
    requires Inv(g)
    ensures forall s | s in g.flock :: g.flock[s] in g.procs && g.procs[g.flock[s]].locked == Some(s)
    ensures forall l | l in g.procd :: g.procd[l] in g.procs && g.procs[g.procd[l]].procd && LockOf(g.procs[g.procd[l]].kind) == l
  {
    hide SvcOk, ProcOk;
  }

  /** Each process of the chain waits for the next. */
  predicate IsChain(g: Sys, chain: seq<Pid>) {
    forall i | 0 <= i < |chain| - 1 :: WaitsFor(g, chain[i], chain[i + 1])
  }

  lemma {:induction false} ChainDescends(g: Sys, chain: seq<Pid>, i: nat, j: nat)
    requires Inv(g) && IsChain(g, chain) && i <= j < |chain|
    ensures Rank(g, chain[j]) + j - i <= Rank(g, chain[i])
  {
    hide Inv, Rank;
    if i < j {
      ChainDescends(g, chain, i, j - 1);
      WaitsDescend(g, chain[j - 1], chain[j]);
    }
  }

  /** The wait-for relation has no cycle in any reachable state, and no chain of waits is longer
      than the lock order. */
  lemma NoCycle(states: seq<Sys>, events: seq<Event>, k: nat, chain: seq<Pid>)
    requires IsRun(states, events) && k < |states| && IsChain(states[k], chain)
    ensures |chain| <= 5
    ensures forall i, j | 0 <= i < j < |chain| :: chain[i] != chain[j]
  {
    hide Inv;
    Reachable(states, events, k);
    if |chain| > 0 { ChainDescends(states[k], chain, 0, |chain| - 1); }
    forall i, j | 0 <= i < j < |chain| ensures chain[i] != chain[j] { ChainDescends(states[k], chain, i, j); }
  }

  /** No deadlock: whichever process one looks at, it can run or waits, over at most four
      others, for one that can. */
  lemma NoDeadlock(states: seq<Sys>, events: seq<Event>, i: nat, pid: Pid) returns (chain: seq<Pid>)
    requires IsRun(states, events) && i < |states| && pid in states[i].procs
    ensures 1 <= |chain| <= 5 && chain[0] == pid && IsChain(states[i], chain)
    ensures CanRun(states[i], chain[|chain| - 1])
  {
    hide Inv;
    Reachable(states, events, i);
    chain := Unblock(states[i], pid);
    NoCycle(states, events, i, chain);
  }

  /** Follows the wait-for relation from `pid` to a process that can run. */
  lemma {:induction false} Unblock(g: Sys, pid: Pid) returns (chain: seq<Pid>)
    requires Inv(g) && pid in g.procs
    ensures chain != [] && chain[0] == pid && IsChain(g, chain) && CanRun(g, chain[|chain| - 1])
    decreases Rank(g, pid)
  {
    hide Inv, Rank, CanRun, WaitsFor;
    BlockedWaits(g, pid);
    if CanRun(g, pid) {
      chain := [pid];
    } else {
      var b :| WaitsFor(g, pid, b);
      WaitsDescend(g, pid, b);
      BothThere(g, pid, b);
      var rest := Unblock(g, b);
      chain := [pid] + rest;
    }
  }

  lemma BothThere(g: Sys, a: Pid, b: Pid)
    requires WaitsFor(g, a, b)
    ensures b in g.procs
  {
  }
}
