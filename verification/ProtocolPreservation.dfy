/** Every event keeps the invariant. */
module ProtocolPreservation {
  import opened Common
  import opened Lifecycle
  import opened Protocol
  import opened ProtocolInvariant

  /** The process table with `q` in place, before any exit. */
  function Placed(m: Sys, pid: Pid, q: Proc): Sys {
    m.(procs := m.procs[pid := q])
  }

  lemma ExitKeepsLocks(m: Sys, pid: Pid, q: Proc)
    requires LocksOk(Placed(m, pid, q)) && q.locked.None?
    ensures LocksOk(Continue(m, pid, q))
  {
    var g := Placed(m, pid, q);
    var h := Continue(m, pid, q);
    forall s | s in h.flock ensures h.flock[s] in h.procs && h.procs[h.flock[s]].locked == Some(s) {
      assert s in g.flock && g.procs[g.flock[s]].locked == Some(s);
    }
    forall l | l in h.procd
      ensures h.procd[l] in h.procs && h.procs[h.procd[l]].procd && LockOf(h.procs[h.procd[l]].kind) == l
    {
      assert l in g.procd && g.procs[g.procd[l]].procd;
    }
    forall c | c in h.procs ensures c < h.next { assert c in g.procs; }
    forall c | c in h.procs && h.procs[c].locked.Some?
      ensures h.procs[c].locked.value in h.flock && h.flock[h.procs[c].locked.value] == c
    {
      assert c in g.procs && g.procs[c] == h.procs[c];
    }
    forall c | c in h.procs && h.procs[c].procd
      ensures LockOf(h.procs[c].kind) in h.procd && h.procd[LockOf(h.procs[c].kind)] == c
    {
      assert c in g.procs && g.procs[c] == h.procs[c] && g.procs[pid] == q;
    }
  }

  lemma ContinueKeepsInv(g: Sys, m: Sys, pid: Pid, q: Proc)
    requires Inv(g) && pid in g.procs && m.procs == g.procs && m.next == g.next
    requires LocksOk(Placed(m, pid, q)) && (q.todo == [] ==> q.locked.None?)
    requires Later(g, Continue(m, pid, q), pid)
    requires q.todo != [] ==> ProcOk(Continue(m, pid, q), q)
    requires forall s :: SvcOk(Continue(m, pid, q), s)
    ensures Inv(Continue(m, pid, q))
  {
    var h := Continue(m, pid, q);
    if q.todo == [] { ExitKeepsLocks(m, pid, q); }
    forall c | c in h.procs ensures ProcOk(h, h.procs[c]) {
      if c != pid { OthersUndisturbed(g, h, pid, c); }
    }
  }

  lemma BornKeepsInv(g: Sys, p: Proc)
    requires Inv(g)
    requires !p.procd && p.locked.None? && p.depth == 0 && !p.inst && p.plan.Idle? && p.todo != []
    requires Typed(p.todo, HeldBy(p))
    requires forall i | 0 <= i < |p.todo| :: OpOk(g, p, p.todo[i])
    ensures Inv(Born(g, p))
  {
    hide SvcOk, ProcOk;
    var h := Born(g, p);
    assert Later(g, h, g.next);
    forall c | c in h.procs ensures ProcOk(h, h.procs[c]) {
      if c != g.next { OthersUndisturbed(g, h, g.next, c); } else { NewbornOk(g, h, p); }
    }
    assert LocksOk(h);
    forall s ensures SvcOk(h, s) { assert SvcOk(g, s); SameWorkers(g, h, s); }
  }

  lemma NewbornOk(g: Sys, h: Sys, p: Proc)
    requires !p.procd && p.locked.None? && p.depth == 0 && !p.inst && p.plan.Idle? && p.todo != []
    requires Typed(p.todo, HeldBy(p))
    requires h.files == g.files && h.now == g.now && g.past.Before(h.past) && g.next <= h.next
    requires forall c | c in h.procs && c < g.next :: c in g.procs && h.procs[c] == g.procs[c]
    requires forall i | 0 <= i < |p.todo| :: OpOk(g, p, p.todo[i])
    ensures ProcOk(h, p)
  {
    forall i | 0 <= i < |p.todo| ensures OpOk(h, p, p.todo[i]) { assert OpOk(g, p, p.todo[i]); }
  }

  /** `SvcOk` carries over when the service's line and its worker's program are the same. */
  lemma SameWorkers(g: Sys, h: Sys, s: Service)
    requires SvcOk(g, s)
    requires h.files.At(s) == g.files.At(s) && g.past.Before(h.past)
    requires forall pid | Working(g, s, pid) :: Working(h, s, pid) && h.procs[pid].todo == g.procs[pid].todo
    ensures SvcOk(h, s)
  {
    var v := g.files.At(s);
    if v.registered && !v.Settled() && s !in g.past.misled {
      var pid :| Working(g, s, pid) && Clears(g.procs[pid].todo, s);
      assert Working(h, s, pid) && Clears(h.procs[pid].todo, s);
    }
    if v.nft && !v.registered && s !in g.past.failed + g.past.misled {
      var pid :| Working(g, s, pid) && g.procs[pid].todo != [] && g.procs[pid].todo[0] == Clean(s);
      assert Working(h, s, pid) && h.procs[pid].todo[0] == Clean(s);
    }
  }

  /** Operations about which the invariant has nothing to say. */
  predicate Harmless(op: Op) {
    !(op.ExpiryGate? || op.Recheck? || op.Poll? || op.CheckClock? || op.Join? || op.Validate?)
    && (op.DecideStart? ==> !op.ctx.BootExpired?)
  }

  lemma ProgramsAreHarmless(r: Request)
    ensures forall i | 0 <= i < |Program(r)| :: Harmless(Program(r)[i])
    ensures Program(r) != []
  {
  }

  lemma SpawnKeepsInv(g: Sys, r: Request)
    requires Inv(g)
    ensures Inv(Next(g, Spawn(r)))
  {
    var p := NewProc(KindOf(r), Program(r));
    ProgramsAreTyped(r);
    ProgramsAreHarmless(r);
    forall i | 0 <= i < |p.todo| ensures OpOk(g, p, p.todo[i]) { assert Harmless(p.todo[i]); }
    BornKeepsInv(g, p);
  }

  lemma TickKeepsInv(g: Sys)
    requires Inv(g)
    ensures Inv(Next(g, Tick))
  {
    var h := Next(g, Tick);
    forall c | c in h.procs ensures ProcOk(h, h.procs[c]) { OthersUndisturbed(g, h, g.next, c); }
    forall s ensures SvcOk(h, s) { assert SvcOk(g, s); SameWorkers(g, h, s); }
  }

  lemma DaemonKeepsInv(g: Sys, s: Service)
    requires Inv(g) && g.files.At(s).registered
    ensures Inv(Next(g, DaemonUp(s)))
  {
    var h := Next(g, DaemonUp(s));
    forall c | c in h.procs ensures ProcOk(h, h.procs[c]) { OthersUndisturbed(g, h, g.next, c); }
    forall o ensures SvcOk(h, o) {
      if o != s { assert SvcOk(g, o); SameWorkers(g, h, o); }
      else {
        assert SvcOk(g, s);
        var v := g.files.At(s);
        if !v.Settled() && s !in g.past.misled {
          var pid :| Working(g, s, pid) && Clears(g.procs[pid].todo, s);
          assert Working(h, s, pid) && Clears(h.procs[pid].todo, s);
        }
      }
    }
  }

  lemma KillRunnerKeepsInv(g: Sys, pid: Pid)
    requires Inv(g) && pid in g.procs && g.procs[pid].kind.Runner?
    ensures Inv(Next(g, KillRunner(pid)))
  {
    hide ProcOk, SvcOk, LocksOk;
    var h := Next(g, KillRunner(pid));
    assert ProcOk(g, g.procs[pid]);
    RunnerHoldsNothing(g, g.procs[pid]);
    RunnerGone(g, pid);
    assert Later(g, h, pid);
    forall c | c in h.procs ensures ProcOk(h, h.procs[c]) { OthersUndisturbed(g, h, pid, c); }
    forall s ensures SvcOk(h, s) {
      assert SvcOk(g, s);
      NotWorking(g, pid, s);
      SvcElsewhere(g, h, pid, s);
    }
  }

  lemma RunnerHoldsNothing(g: Sys, p: Proc)
    requires ProcOk(g, p) && p.kind.Runner?
    ensures !p.procd && p.locked.None?
  {
  }

  lemma RunnerGone(g: Sys, pid: Pid)
    requires LocksOk(g) && pid in g.procs && !g.procs[pid].procd && g.procs[pid].locked.None?
    ensures LocksOk(g.(procs := g.procs - {pid}))
  {
  }

  lemma NotWorking(g: Sys, pid: Pid, s: Service)
    requires LocksOk(g) && pid in g.procs && (!g.procs[pid].procd || g.procs[pid].kind != Command(s))
    ensures !Working(g, s, pid)
  {
  }

  // --------------------------------------------------------- shared lemmas

  /** A process that is not working for `s` and leaves its line alone is invisible to it. */
  lemma SvcElsewhere(g: Sys, h: Sys, pid: Pid, s: Service)
    requires Inv(g) && pid in g.procs && !Working(g, s, pid)
    requires h.files.At(s) == g.files.At(s) && g.past.Before(h.past)
    requires ServiceLock(s) in g.procd ==> ServiceLock(s) in h.procd && h.procd[ServiceLock(s)] == g.procd[ServiceLock(s)]
    requires forall c | c in g.procs && c != pid :: c in h.procs && h.procs[c] == g.procs[c]
    ensures SvcOk(h, s)
  {
    assert SvcOk(g, s);
    SameWorkers(g, h, s);
  }

  lemma OnlyWorker(g: Sys, pid: Pid, s: Service)
    requires LocksOk(g) && pid in g.procs && g.procs[pid].kind == Command(s) && g.procs[pid].procd
    ensures Working(g, s, pid) && forall c | Working(g, s, c) :: c == pid
    ensures forall o | o != s :: !Working(g, o, pid)
  {
    assert LockOf(g.procs[pid].kind) == ServiceLock(s);
  }

  /** What the invariant says about the worker of `s`. */
  lemma WorkerFacts(g: Sys, pid: Pid, s: Service)
    requires Inv(g) && pid in g.procs && g.procs[pid].kind == Command(s) && g.procs[pid].procd
    ensures var v, p := g.files.At(s), g.procs[pid];
            && (v.registered ==> v.Settled() || s in g.past.misled || Clears(p.todo, s))
            && (v.nft ==> v.registered || s in g.past.failed + g.past.misled || p.todo[0] == Clean(s))
            && HeadOk(g, p)
            && p.todo != []
    ensures Working(g, s, pid)
  {
    OnlyWorker(g, pid, s);
    assert SvcOk(g, s) && ProcOk(g, g.procs[pid]);
  }

  /** The process keeps its locks: the lock tables still agree. */
  lemma LocksSame(g: Sys, m: Sys, pid: Pid, q: Proc)
    requires LocksOk(g) && pid in g.procs
    requires m.procs == g.procs && m.flock == g.flock && m.procd == g.procd && m.next == g.next
    requires var p := g.procs[pid]; q.locked == p.locked && q.procd == p.procd && (q.procd ==> q.kind == p.kind)
    ensures LocksOk(Placed(m, pid, q))
  {
  }

  lemma LocksTake(g: Sys, pid: Pid, q: Proc, lock: ProcdLock)
    requires LocksOk(g) && pid in g.procs && !g.procs[pid].procd && lock !in g.procd
    requires q.locked == g.procs[pid].locked && q.procd && LockOf(q.kind) == lock && q.kind == g.procs[pid].kind
    ensures LocksOk(Placed(g.(procd := g.procd[lock := pid]), pid, q))
  {
    var m := g.(procd := g.procd[lock := pid]);
    forall l | l in m.procd
      ensures m.procd[l] in Placed(m, pid, q).procs && Placed(m, pid, q).procs[m.procd[l]].procd
      ensures LockOf(Placed(m, pid, q).procs[m.procd[l]].kind) == l
    {
      if l != lock { assert l in g.procd && g.procs[g.procd[l]].procd; }
    }
  }

  lemma LocksAcquire(g: Sys, pid: Pid, q: Proc, s: Service)
    requires LocksOk(g) && pid in g.procs && g.procs[pid].locked.None? && s !in g.flock
    requires q.locked == Some(s) && q.procd == g.procs[pid].procd && q.kind == g.procs[pid].kind
    ensures LocksOk(Placed(g.(flock := g.flock[s := pid]), pid, q))
  {
    var m := g.(flock := g.flock[s := pid]);
    forall o | o in m.flock
      ensures m.flock[o] in Placed(m, pid, q).procs && Placed(m, pid, q).procs[m.flock[o]].locked == Some(o)
    {
      if o != s { assert o in g.flock && g.procs[g.flock[o]].locked == Some(o); }
    }
  }

  lemma LocksRelease(g: Sys, pid: Pid, q: Proc, s: Service)
    requires LocksOk(g) && pid in g.procs && g.procs[pid].locked == Some(s)
    requires q.locked.None? && q.procd == g.procs[pid].procd && q.kind == g.procs[pid].kind
    ensures LocksOk(Placed(g.(flock := g.flock - {s}), pid, q))
  {
    var m := g.(flock := g.flock - {s});
    forall o | o in m.flock
      ensures m.flock[o] in Placed(m, pid, q).procs && Placed(m, pid, q).procs[m.flock[o]].locked == Some(o)
    {
      assert o in g.flock && g.procs[g.flock[o]].locked == Some(o);
    }
  }

  /** The operations left over from `p` still hold of the new state. */
  lemma TailOk(g: Sys, h: Sys, p: Proc, q: Proc, i: nat)
    requires ProcOk(g, p)
    requires i < |p.todo| && q.kind == p.kind && (p.procd ==> q.procd)
    requires h.files == g.files && h.now == g.now && g.past.Before(h.past) && g.next <= h.next
    requires p.locked.None? || p.locked == q.locked || Plain(p.todo[1..])
    requires forall c | c in h.procs && c < g.next :: c in g.procs && (g.procs[c].kind.Command? ==> h.procs[c].kind == g.procs[c].kind)
    ensures i > 0 ==> OpOk(h, q, p.todo[i])
  {
    assert OpOk(g, p, p.todo[i]);
    if i > 0 { assert p.todo[i] == p.todo[1..][i - 1]; }
  }

  lemma SuffixOfRelease(todo: seq<Op>, depth: nat)
    ensures |AfterRelease(todo, depth)| <= |todo|
    ensures AfterRelease(todo, depth) == todo[|todo| - |AfterRelease(todo, depth)|..]
  {
  }

  /** Typing of what is left after the first operation. */
  lemma TypedTail(g: Sys, p: Proc)
    requires ProcOk(g, p)
    ensures OpTyped(p.todo[0], p.todo[1..], HeldBy(p))
    ensures Typed(p.todo[1..], HeldBy(p).After(p.todo[0]))
    ensures p.todo[0].Acquire? && p.locked.None? ==> Typed(AfterRelease(p.todo[1..], 1), HeldBy(p))
    ensures p.todo[0].ReadConfig? ==> Typed(p.todo[5..], HeldBy(p))
  {
  }

  /** Assembles `ProcOk` from its parts. */
  lemma MakeProcOk(h: Sys, q: Proc)
    requires q.todo != [] && (q.depth > 0 <==> q.locked.Some?)
    requires Typed(q.todo, HeldBy(q))
    requires forall i | 0 <= i < |q.todo| :: OpOk(h, q, q.todo[i])
    requires HeadOk(h, q) && PlanOk(h, q) && (q.inst ==> q.kind.Command? && q.procd)
    ensures ProcOk(h, q)
  {
  }

  /** The leftover program of a step that keeps the files. */
  lemma LeftoverOk(g: Sys, h: Sys, p: Proc, q: Proc)
    requires ProcOk(g, p) && q.todo == p.todo[1..] && q.todo != []
    requires q.kind == p.kind && (p.procd ==> q.procd) && HeldBy(q) == HeldBy(p).After(p.todo[0])
    requires h.files == g.files && h.now == g.now && g.past.Before(h.past) && g.next <= h.next
    requires p.locked.None? || p.locked == q.locked || Plain(q.todo)
    requires forall c | c in h.procs && c < g.next :: c in g.procs && (g.procs[c].kind.Command? ==> h.procs[c].kind == g.procs[c].kind)
    requires HeadOk(h, q) && PlanOk(h, q) && (q.inst ==> q.kind.Command? && q.procd)
    requires q.depth > 0 <==> q.locked.Some?
    ensures ProcOk(h, q)
  {
    TypedTail(g, p);
    forall i | 0 <= i < |q.todo| ensures OpOk(h, q, q.todo[i]) { TailOk(g, h, p, q, i + 1); }
  }

  // ------------------------------------------------- operations on the locks

  lemma TakeProcdOk(g: Sys, h: Sys, p: Proc, q: Proc)
    requires ProcOk(g, p) && p.todo[0].TakeProcd? && q == p.(todo := p.todo[1..], procd := true) && q.todo != []
    requires h.files == g.files && h.now == g.now && g.past.Before(h.past) && g.next <= h.next
    requires forall c | c in h.procs && c < g.next :: c in g.procs && (g.procs[c].kind.Command? ==> h.procs[c].kind == g.procs[c].kind)
    ensures ProcOk(h, q)
  {
    TypedTail(g, p);
    assert HeldBy(q) == HeldBy(p).After(p.todo[0]);
    LeftoverOk(g, h, p, q);
  }

  lemma TakeProcdSvc(g: Sys, h: Sys, pid: Pid, s: Service)
    requires Inv(g) && CanRun(g, pid) && g.procs[pid].todo[0].TakeProcd?
    requires h.files == g.files && h.past == g.past
    requires forall l | l in g.procd :: l in h.procd && h.procd[l] == g.procd[l]
    requires forall c | c in g.procs && c != pid :: c in h.procs && h.procs[c] == g.procs[c]
    ensures SvcOk(h, s)
  {
    assert SvcOk(g, s);
    assert ProcOk(g, g.procs[pid]);
    assert !g.procs[pid].procd;
    assert !Working(g, s, pid);
    SvcElsewhere(g, h, pid, s);
  }

  lemma TakeProcdKeepsInv(g: Sys, pid: Pid, e: Env, tok: Token)
    requires Inv(g) && CanRun(g, pid) && g.procs[pid].todo[0].TakeProcd?
    ensures Inv(Step(g, pid, e, tok))
  {
    hide ProcOk, SvcOk, LocksOk;
    var p := g.procs[pid];
    assert ProcOk(g, p);
    var m := g.(procd := g.procd[p.todo[0].lock := pid]);
    var q := p.(todo := p.todo[1..], procd := true);
    var h := Continue(m, pid, q);
    TypedTail(g, p);
    LocksTake(g, pid, q, p.todo[0].lock);
    forall s ensures SvcOk(h, s) { TakeProcdSvc(g, h, pid, s); }
    if q.todo != [] { TakeProcdOk(g, h, p, q); }
    ContinueKeepsInv(g, m, pid, q);
  }

  /** What `Continue` leaves in place for the others. */
  lemma ContinueFrame(g: Sys, m: Sys, pid: Pid, q: Proc)
    requires LocksOk(g) && pid in g.procs && m.procs == g.procs && m.procd == g.procd
    requires q.procd == g.procs[pid].procd && (q.procd ==> q.kind == g.procs[pid].kind)
    ensures var h := Continue(m, pid, q);
            && (forall l | l in g.procd && g.procd[l] != pid :: l in h.procd && h.procd[l] == g.procd[l])
            && (forall c | c in g.procs && c != pid :: c in h.procs && h.procs[c] == g.procs[c])
            && (q.todo != [] ==> h.procd == g.procd && pid in h.procs && h.procs[pid] == q)
  {
  }

  /** Services that see no change in their line, their worker's program or their history. */
  lemma SvcUntouched(g: Sys, h: Sys, pid: Pid, s: Service)
    requires Inv(g) && pid in g.procs
    requires h.files == g.files && g.past.Before(h.past)
    requires forall l | l in g.procd && g.procd[l] != pid :: l in h.procd && h.procd[l] == g.procd[l]
    requires forall c | c in g.procs && c != pid :: c in h.procs && h.procs[c] == g.procs[c]
    requires Working(g, s, pid) ==>
               var v := g.files.At(s);
               && (v.registered ==> v.Settled() || s in g.past.misled || (Working(h, s, pid) && Clears(h.procs[pid].todo, s)))
               && (v.nft ==> v.registered || s in g.past.failed + g.past.misled)
    ensures SvcOk(h, s)
  {
    assert SvcOk(g, s);
    if !Working(g, s, pid) { SvcElsewhere(g, h, pid, s); }
  }

  /** Taking or giving back the lifecycle lock leaves a worker's obligations as they were. */
  lemma LockHead(g: Sys, h: Sys, p: Proc, q: Proc)
    requires ProcOk(g, p) && (p.todo[0].Acquire? || p.todo[0].Release?)
    requires q.todo == p.todo[1..] && q.kind == p.kind && q.procd == p.procd && q.inst == p.inst && q.plan == p.plan
    requires h.files == g.files && h.now == g.now && g.past.Before(h.past)
    ensures HeadOk(h, q) && PlanOk(h, q)
  {
    TypedTail(g, p);
  }

  lemma AcquireSvc(g: Sys, h: Sys, pid: Pid, s: Service)
    requires Inv(g) && pid in g.procs && ProcOk(g, g.procs[pid]) && g.procs[pid].todo[0].Acquire?
    requires Working(g, s, pid)
    ensures var v := g.files.At(s); (v.registered ==> v.Settled() || s in g.past.misled) && (v.nft ==> v.registered || s in g.past.failed + g.past.misled)
  {
    var p := g.procs[pid];
    assert LockOf(p.kind) == ServiceLock(s);
    WorkerFacts(g, pid, s);
    assert !Clears(p.todo, s);
  }

  /** Taking or giving back the lifecycle lock, once the lock tables are known to agree. */
  lemma LockOpKeepsInv(g: Sys, m: Sys, pid: Pid, q: Proc)
    requires Inv(g) && pid in g.procs && (g.procs[pid].todo[0].Acquire? || g.procs[pid].todo[0].Release?)
    requires m == g.(flock := m.flock) && LocksOk(Placed(m, pid, q))
    requires var p := g.procs[pid];
      && q == p.(todo := p.todo[1..], locked := q.locked, depth := q.depth)
      && HeldBy(q) == HeldBy(p).After(p.todo[0]) && (q.depth > 0 <==> q.locked.Some?)
      && (p.locked.None? || p.locked == q.locked || Plain(q.todo))
    requires q.todo == [] ==> q.locked.None?
    ensures Inv(Continue(m, pid, q))
  {
    hide ProcOk, SvcOk, LocksOk, HeadOk;
    var p := g.procs[pid];
    assert ProcOk(g, p);
    var h := Continue(m, pid, q);
    LockHead(g, h, p, q);
    ProcParts(g, p);
    if q.todo != [] { LeftoverOk(g, h, p, q); }
    ContinueFrame(g, m, pid, q);
    forall o ensures SvcOk(h, o) {
      if Working(g, o, pid) { if p.todo[0].Acquire? { AcquireSvc(g, h, pid, o); } else { ReleaseSvc(g, h, pid, o); } }
      SvcUntouched(g, h, pid, o);
    }
    ContinueKeepsInv(g, m, pid, q);
  }

  lemma AcquireKeepsInv(g: Sys, pid: Pid, e: Env, tok: Token)
    requires Inv(g) && CanRun(g, pid) && g.procs[pid].todo[0].Acquire?
    requires g.procs[pid].locked == Some(g.procs[pid].todo[0].s) || e.lockOk
    ensures Inv(Step(g, pid, e, tok))
  {
    hide ProcOk, SvcOk, LocksOk, HeadOk, Continue;
    var p := g.procs[pid];
    assert ProcOk(g, p);
    TypedTail(g, p);
    ProcParts(g, p);
    var s := p.todo[0].s;
    var nested := p.locked == Some(s);
    var m := if nested then g else g.(flock := g.flock[s := pid]);
    var q := p.(todo := p.todo[1..], locked := Some(s), depth := if nested then p.depth + 1 else 1);
    if nested { LocksSame(g, m, pid, q); } else { LocksAcquire(g, pid, q, s); }
    LockOpKeepsInv(g, m, pid, q);
  }

  lemma ProcParts(g: Sys, p: Proc)
    requires ProcOk(g, p)
    ensures p.todo != [] && (p.depth > 0 <==> p.locked.Some?) && (p.inst ==> p.kind.Command? && p.procd)
    ensures HeadOk(g, p) && PlanOk(g, p)
    ensures forall i | 0 <= i < |p.todo| :: OpOk(g, p, p.todo[i])
    ensures Typed(p.todo, HeldBy(p))
  {
  }

  lemma AcquireFailsKeepsInv(g: Sys, pid: Pid, e: Env, tok: Token)
    requires Inv(g) && CanRun(g, pid) && g.procs[pid].todo[0].Acquire?
    requires g.procs[pid].locked != Some(g.procs[pid].todo[0].s) && !e.lockOk
    ensures Inv(Step(g, pid, e, tok))
  {
    hide ProcOk, SvcOk, LocksOk, HeadOk;
    var p := g.procs[pid];
    assert ProcOk(g, p);
    TypedTail(g, p);
    var s := p.todo[0].s;
    var m := g.(past := g.past.(failed := g.past.failed + {s}));
    var q := p.(todo := AfterRelease(p.todo[1..], 1), plan := Idle);
    var h := Continue(m, pid, q);
    ProcParts(g, p);
    assert p.locked.None?;
    LocksSame(g, m, pid, q);
    if q.todo != [] {
      AcquireFailsHead(g, h, p, q);
      SuffixOfRelease(p.todo[1..], 1);
      forall i | 0 <= i < |q.todo| ensures OpOk(h, q, q.todo[i]) {
        TailOk(g, h, p, q, i + |p.todo| - |q.todo|);
      }
      MakeProcOk(h, q);
    }
    ContinueFrame(g, m, pid, q);
    forall o ensures SvcOk(h, o) {
      if Working(g, o, pid) { AcquireSvc(g, h, pid, o); }
      SvcUntouched(g, h, pid, o);
    }
    ContinueKeepsInv(g, m, pid, q);
  }

  lemma AcquireFailsHead(g: Sys, h: Sys, p: Proc, q: Proc)
    requires ProcOk(g, p) && p.todo[0].Acquire? && p.locked.None?
    requires q == p.(todo := AfterRelease(p.todo[1..], 1), plan := Idle)
    requires p.todo[0].s in h.past.failed
    ensures HeadOk(h, q)
  {
    TypedTail(g, p);
    assert p.kind.Command? ==> !SubmitNext(p.todo, p.kind.s);
  }

  lemma ReleaseKeepsInv(g: Sys, pid: Pid, e: Env, tok: Token)
    requires Inv(g) && CanRun(g, pid) && g.procs[pid].todo[0].Release?
    ensures Inv(Step(g, pid, e, tok))
  {
    hide ProcOk, SvcOk, LocksOk, HeadOk, Continue;
    var p := g.procs[pid];
    assert ProcOk(g, p);
    TypedTail(g, p);
    ProcParts(g, p);
    var s := p.todo[0].s;
    var last := p.depth == 1;
    var m := if last then g.(flock := g.flock - {s}) else g;
    var q := p.(todo := p.todo[1..], locked := if last then None else p.locked, depth := p.depth - 1);
    if last { LocksRelease(g, pid, q, s); } else { LocksSame(g, m, pid, q); }
    LockOpKeepsInv(g, m, pid, q);
  }

  lemma ReleaseSvc(g: Sys, h: Sys, pid: Pid, s: Service)
    requires Inv(g) && pid in g.procs && ProcOk(g, g.procs[pid]) && g.procs[pid].todo[0].Release?
    requires Working(g, s, pid)
    requires |g.procs[pid].todo| > 1 ==>
               pid in h.procs && h.procs[pid].todo == g.procs[pid].todo[1..] && ServiceLock(s) in h.procd && h.procd[ServiceLock(s)] == pid
    ensures var v := g.files.At(s);
            && (v.registered ==> v.Settled() || s in g.past.misled || (Working(h, s, pid) && Clears(h.procs[pid].todo, s)))
            && (v.nft ==> v.registered || s in g.past.failed + g.past.misled)
  {
    var p := g.procs[pid];
    assert LockOf(p.kind) == ServiceLock(s);
    WorkerFacts(g, pid, s);
    if Clears(p.todo, s) { assert Clears(p.todo[1..], s); }
  }

  // --------------------------------------------------- operations of the scheduler

  lemma PidBelow(g: Sys, pid: Pid)
    requires LocksOk(g) && pid in g.procs
    ensures pid < g.next
  {
  }

  /** A scheduler step that keeps the files only has to account for its own program. */
  lemma SchedulerStep(g: Sys, pid: Pid, q: Proc)
    requires Inv(g) && pid in g.procs && g.procs[pid].kind.Scheduler?
    requires q.kind.Scheduler? && q.procd == g.procs[pid].procd && q.locked == g.procs[pid].locked
    requires q.todo == [] ==> q.locked.None?
    requires q.todo != [] ==> ProcOk(Continue(g, pid, q), q)
    ensures Inv(Continue(g, pid, q))
  {
    hide ProcOk, SvcOk, LocksOk;
    var h := Continue(g, pid, q);
    LocksSame(g, g, pid, q);
    ContinueFrame(g, g, pid, q);
    forall o ensures SvcOk(h, o) {
      NotWorking(g, pid, o);
      SvcUntouched(g, h, pid, o);
    }
    ContinueKeepsInv(g, g, pid, q);
  }

  lemma JoinKeepsInv(g: Sys, pid: Pid, e: Env, tok: Token)
    requires Inv(g) && CanRun(g, pid) && g.procs[pid].todo[0].Join?
    ensures Inv(Step(g, pid, e, tok))
  {
    hide SvcOk, LocksOk, ProcOk;
    var p := g.procs[pid];
    assert ProcOk(g, p);
    TypedTail(g, p);
    ProcParts(g, p);
    var q := p.(todo := p.todo[1..]);
    var h := Continue(g, pid, q);
    if q.todo != [] { LeftoverOk(g, h, p, q); }
    SchedulerStep(g, pid, q);
  }

  lemma SuperviseIdleKeepsInv(g: Sys, pid: Pid, e: Env, tok: Token)
    requires Inv(g) && CanRun(g, pid) && g.procs[pid].todo[0].Supervise? && !g.procs[pid].plan.Armed?
    ensures Inv(Step(g, pid, e, tok))
  {
    hide Inv, Continue;
    SchedulerMovesOn(g, pid, g.procs[pid].(todo := g.procs[pid].todo[1..]));
  }

  /** A due wait: the expiry command is started and waited for. */
  lemma SuperviseDueKeepsInv(g: Sys, pid: Pid, e: Env, tok: Token)
    requires Inv(g) && CanRun(g, pid) && g.procs[pid].todo[0].Supervise?
    requires g.procs[pid].plan.Armed? && g.procs[pid].plan.at >= g.procs[pid].plan.deadline
    ensures Inv(Step(g, pid, e, tok))
  {
    hide SvcOk, LocksOk, ProcOk;
    var p := g.procs[pid];
    assert ProcOk(g, p);
    TypedTail(g, p);
    ProcParts(g, p);
    PidBelow(g, pid);
    var s, token, deadline := p.todo[0].s, p.plan.token, p.plan.deadline;
    var child := NewProc(Command(s), ExpiryProgram(s, token, deadline));
    TypedGated(s, ExpiryGate(s, token, deadline));
    BornKeepsInv(g, child);
    var b := Born(g, child);
    assert pid in b.procs && b.procs[pid] == p && b.procs[g.next] == child;
    assert ProcOk(b, b.procs[pid]);
    var q := p.(todo := [Join(g.next)] + p.todo[1..], plan := Idle);
    WaitingOk(b, Continue(b, pid, q), p, q, g.next);
    SchedulerStep(b, pid, q);
  }

  lemma WaitingOk(b: Sys, h: Sys, p: Proc, q: Proc, child: Pid)
    requires ProcOk(b, p) && p.todo[0].Supervise? && q == p.(todo := [Join(child)] + p.todo[1..], plan := Idle)
    requires child < b.next && child in h.procs && h.procs[child].kind.Command?
    requires h.files == b.files && h.now == b.now && h.past == b.past && h.next == b.next
    requires forall c | c in h.procs :: c in b.procs && h.procs[c].kind == b.procs[c].kind
    ensures ProcOk(h, q)
  {
    TypedTail(b, p);
    TypedCons(Join(child), p.todo[1..], HeldBy(p));
    assert HeldBy(q) == HeldBy(p);
    forall i | 0 <= i < |q.todo| ensures OpOk(h, q, q.todo[i]) {
      if i > 0 { TailOk(b, h, p, q, i); }
    }
    MakeProcOk(h, q);
  }

  /** A wait still ahead: a runner is started. */
  lemma SuperviseAheadKeepsInv(g: Sys, pid: Pid, e: Env, tok: Token)
    requires Inv(g) && CanRun(g, pid) && g.procs[pid].todo[0].Supervise?
    requires g.procs[pid].plan.Armed? && g.procs[pid].plan.at < g.procs[pid].plan.deadline
    ensures Inv(Step(g, pid, e, tok))
  {
    hide SvcOk, LocksOk, ProcOk;
    var p := g.procs[pid];
    assert ProcOk(g, p);
    TypedTail(g, p);
    ProcParts(g, p);
    PidBelow(g, pid);
    var s, token, deadline := p.todo[0].s, p.plan.token, p.plan.deadline;
    var child := NewProc(Runner, [Poll(s, token, deadline)]);
    RunnerTyped(Poll(s, token, deadline));
    BornKeepsInv(g, child);
    var b := Born(g, child);
    assert pid in b.procs && b.procs[pid] == p;
    var q := p.(todo := p.todo[1..], plan := Idle);
    SchedulerMovesOn(b, pid, q);
  }

  /** A scheduler that has done with one service goes on with the rest of its program. */
  lemma SchedulerMovesOn(b: Sys, pid: Pid, q: Proc)
    requires Inv(b) && pid in b.procs && b.procs[pid].todo[0].Supervise?
    requires q == b.procs[pid].(todo := b.procs[pid].todo[1..], plan := q.plan)
    requires q.plan.Idle? || q.plan == b.procs[pid].plan
    ensures Inv(Continue(b, pid, q))
  {
    hide SvcOk, LocksOk;
    var p := b.procs[pid];
    assert ProcOk(b, p);
    TypedTail(b, p);
    if q.todo != [] { LeftoverOk(b, Continue(b, pid, q), p, q); }
    SchedulerStep(b, pid, q);
  }

  lemma RunnerTyped(op: Op)
    requires op.Poll? || op.CheckClock? || op.Recheck?
    ensures Typed([op], Held(Runner, false, None, 0))
  {
    assert [op][1..] == [];
  }
}
