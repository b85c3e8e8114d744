/** The inductive invariant of the protocol and its preservation by every event. */
module ProtocolInvariant {
  import opened Common
  import opened Lifecycle
  import opened Protocol

  // ------------------------------------------------------- lock discipline

  /** The locks a process holds, as the operations change them. */
  datatype Held = Held(k: Kind, procd: bool, locked: Option<Service>, depth: nat) {
    function After(op: Op): Held {
      if op.TakeProcd? then this.(procd := true)
      else if op.Acquire? then this.(locked := Some(op.s), depth := depth + 1)
      else if op.Release? then this.(locked := if depth <= 1 then None else locked, depth := if depth == 0 then 0 else depth - 1)
      else this
    }
  }

  /** The lock typing of a program: which locks each remaining operation may
      assume, and that the program ends with none. */
  ghost predicate Typed(todo: seq<Op>, c: Held)
    decreases |todo|
  {
    if todo == [] then c.locked.None? && c.depth == 0
    else
      && OpTyped(todo[0], todo[1..], c)
      && Typed(todo[1..], c.After(todo[0]))
      && (todo[0].Acquire? && c.locked.None? ==> Typed(AfterRelease(todo[1..], 1), c))
      && (todo[0].ReadConfig? && |todo| >= 5 ==> Typed(todo[5..], c))
  }

  ghost predicate OpTyped(op: Op, rest: seq<Op>, c: Held) {
    var holds :=
      match op
      case TakeProcd(lock) =>
        && !c.k.Runner? && lock == LockOf(c.k) && !c.procd && c.locked.None?
        && !Halted(rest) && (c.k.Command? ==> !SubmitNext(rest, c.k.s))
      case Acquire(s) =>
        && c.procd && (c.k == Command(s) || c.k.Scheduler?)
        && (if c.locked.None? then c.depth == 0 && (c.k.Command? ==> !Halted(AfterRelease(rest, 1))) else c.locked == Some(s))
        && !SubmitNext(rest, s)
      case Release(s) =>
        !c.k.Runner? && c.locked == Some(s) && c.depth >= 1 && (c.depth == 1 ==> Plain(rest))
      case DecideStart(s, _) => c.procd && c.k == Command(s) && c.locked == Some(s) && SubmitNext(rest, s) && Plain(rest)
      case Kill(s) => c.procd && c.k == Command(s) && rest != [] && rest[0] == Clean(s)
      case Clean(s) => c.procd && c.k == Command(s)
      case Validate(s) => c.procd && c.k == Command(s) && SubmitNext(rest, s)
      case Submit(s) => c.procd && c.k == Command(s) && !Halted(rest) && !SubmitNext(rest, s) && Plain(rest)
      case LinkGate(s, _) => c.procd && c.k == Command(s) && c.locked == Some(s) && c.depth == 1 && rest == [Release(s)]
      case ExpiryGate(s, _, _) => c.procd && c.k == Command(s) && c.locked == Some(s) && c.depth == 1 && rest == [Release(s)]
      case StopLine(s) => c.procd && c.k == Command(s) && c.locked == Some(s) && Clears(rest, s) && Plain(rest)
      case CancelWait(s) => c.procd && c.k.Scheduler? && c.locked == Some(s) && Plain(rest)
      case ReadConfig(s) => c.procd && c.k.Scheduler? && c.locked.None? && |rest| >= 4
      case ArmWait(s) => c.procd && c.k.Scheduler? && c.locked == Some(s) && Plain(rest)
      case Supervise(s) => c.procd && c.k.Scheduler? && c.locked.None?
      case Join(_) => c.procd && c.k.Scheduler? && c.locked.None?
      case Poll(_, _, _) => c.k.Runner? && !c.procd && c.locked.None? && rest == []
      case CheckClock(_, _, _) => c.k.Runner? && !c.procd && c.locked.None? && rest == []
      case Recheck(_, _, _) => c.k.Runner? && !c.procd && c.locked.None? && rest == [];
    holds
  }

  /** No boot-expired decision and no launch: those are only reached through a gate. */
  ghost predicate Plain(todo: seq<Op>) {
    forall i | 0 <= i < |todo| :: !todo[i].Validate? && (todo[i].DecideStart? ==> !todo[i].ctx.BootExpired?)
  }

  /** Nothing but releases stands before the kill of `s`. */
  ghost predicate Clears(todo: seq<Op>, s: Service) {
    todo != [] && (todo[0] == Kill(s) || (todo[0].Release? && Clears(todo[1..], s)))
  }

  /** Nothing but releases stands before the submission of `s`. */
  ghost predicate SubmitNext(todo: seq<Op>, s: Service) {
    todo != [] && (todo[0] == Submit(s) || (todo[0].Release? && SubmitNext(todo[1..], s)))
  }

  /** The kill has been done and nothing has been submitted since. */
  ghost predicate Halted(todo: seq<Op>) {
    todo != [] &&
    match todo[0]
    case Clean(_) => true
    case Validate(_) => true
    case DecideStart(_, ctx) => ctx.IfdownDefinition?
    case Acquire(_) => Halted(todo[1..])
    case Release(_) => Halted(todo[1..])
    case _ => false
  }

  function HeldBy(p: Proc): Held {
    Held(p.kind, p.procd, p.locked, p.depth)
  }

  // -------------------------------------------------------------- invariant

  ghost predicate Ripe(g: Sys, s: Service, token: Token, deadline: nat) {
    var holds :=
      token in g.past.issued && (g.now >= deadline || !g.files.At(s).Waiting(token, deadline) || s in g.past.misled);
    holds
  }

  ghost predicate OpOk(g: Sys, p: Proc, op: Op) {
    var holds :=
      match op
      case ExpiryGate(s, token, deadline) => Ripe(g, s, token, deadline)
      case Recheck(s, token, deadline) => Ripe(g, s, token, deadline)
      case Poll(s, token, deadline) => token in g.past.issued
      case CheckClock(s, token, deadline) => token in g.past.issued
      case DecideStart(s, ctx) =>
        ctx.BootExpired? ==>
          p.locked == Some(s) && g.files.At(s).Waiting(ctx.token, ctx.deadline) && (g.now >= ctx.deadline || s in g.past.misled)
      case Validate(s) => p.kind == Command(s) && p.procd && (g.files.At(s).Settled() || s in g.past.misled)
      case Join(child) => child < g.next && (child in g.procs ==> g.procs[child].kind.Command?)
      case _ => true;
    holds
  }

  ghost predicate HeadOk(g: Sys, p: Proc) {
    var holds :=
      p.kind.Command? && p.procd ==>
        var v := g.files.At(p.kind.s);
        && (Halted(p.todo) ==> !v.registered)
        && (SubmitNext(p.todo, p.kind.s) ==> !v.registered || (!p.inst && p.kind.s in g.past.failed + g.past.misled))
        && (p.inst ==> (v.Settled() || p.kind.s in g.past.misled) && SubmitNext(p.todo, p.kind.s));
    holds
  }

  ghost predicate PlanOk(g: Sys, p: Proc) {
    var holds :=
      match p.plan
      case Idle => true
      case Read(_, _, at) => at <= g.now
      case Armed(token, deadline, at) => at <= g.now && token in g.past.issued;
    holds
  }

  ghost predicate ProcOk(g: Sys, p: Proc) {
    var holds :=
      && p.todo != []
      && (p.depth > 0 <==> p.locked.Some?)
      && Typed(p.todo, HeldBy(p))
      && (forall i | 0 <= i < |p.todo| :: OpOk(g, p, p.todo[i]))
      && HeadOk(g, p) && PlanOk(g, p)
      && (p.inst ==> p.kind.Command? && p.procd);
    holds
  }

  /** Who holds what: the lock tables and the processes' own view agree. */
  ghost predicate LocksOk(g: Sys) {
    var holds :=
      && (forall s | s in g.flock :: g.flock[s] in g.procs && g.procs[g.flock[s]].locked == Some(s))
      && (forall pid | pid in g.procs && g.procs[pid].locked.Some? ::
            g.procs[pid].locked.value in g.flock && g.flock[g.procs[pid].locked.value] == pid)
      && (forall l | l in g.procd :: g.procd[l] in g.procs && g.procs[g.procd[l]].procd && LockOf(g.procs[g.procd[l]].kind) == l)
      && (forall pid | pid in g.procs && g.procs[pid].procd ::
            LockOf(g.procs[pid].kind) in g.procd && g.procd[LockOf(g.procs[pid].kind)] == pid)
      && (forall pid | pid in g.procs :: pid < g.next);
    holds
  }

  /** The process running a command of `s`, if any. */
  ghost predicate Working(g: Sys, s: Service, pid: Pid) {
    ServiceLock(s) in g.procd && g.procd[ServiceLock(s)] == pid && pid in g.procs
  }

  ghost predicate SvcOk(g: Sys, s: Service) {
    var holds :=
      var v := g.files.At(s);
      && (v.boot.Some? && v.boot.value.Wait? ==> v.boot.value.token in g.past.issued)
      && (v.registered ==> v.Settled() || s in g.past.misled || exists pid | Working(g, s, pid) :: Clears(g.procs[pid].todo, s))
      && (v.nft ==> v.registered || s in g.past.failed + g.past.misled ||
                    exists pid | Working(g, s, pid) :: g.procs[pid].todo != [] && g.procs[pid].todo[0] == Clean(s));
    holds
  }

  ghost predicate Inv(g: Sys) {
    var holds :=
      && LocksOk(g)
      && (forall pid | pid in g.procs :: ProcOk(g, g.procs[pid]))
      && (forall s :: SvcOk(g, s));
    holds
  }

  // ----------------------------------------------- frame for other processes

  /** What a step of `pid` may do to the files, seen by everyone else. */
  ghost predicate Allowed(g: Sys, pid: Pid, s: Service, w: Svc, misled: set<Service>) {
    var holds :=
      var v := g.files.At(s);
      && (w.boot != v.boot ==>
            && pid in g.procs && g.procs[pid].locked == Some(s)
            && (Working(g, s, pid) || !v.Settled() || s in misled)
            && (w.boot.Some? && w.boot.value.Wait? ==> w.boot.value.token !in g.past.issued))
      && (w.registered != v.registered ==> Working(g, s, pid));
    holds
  }

  ghost predicate Later(g: Sys, h: Sys, pid: Pid) {
    var holds :=
      && h.now >= g.now && h.next >= g.next && g.past.Before(h.past)
      && (forall s :: Allowed(g, pid, s, h.files.At(s), h.past.misled))
      && (forall c | c in h.procs && c < g.next :: c in g.procs && (g.procs[c].kind.Command? ==> h.procs[c].kind == g.procs[c].kind));
    holds
  }

  lemma OthersUndisturbed(g: Sys, h: Sys, pid: Pid, other: Pid)
    requires Inv(g) && Later(g, h, pid)
    requires other in g.procs && other != pid
    ensures ProcOk(h, g.procs[other])
  {
    var p := g.procs[other];
    forall i | 0 <= i < |p.todo| ensures OpOk(h, p, p.todo[i]) {
      assert OpOk(g, p, p.todo[i]);
      var op := p.todo[i];
      match op
      case ExpiryGate(s, token, deadline) => assert Allowed(g, pid, s, h.files.At(s), h.past.misled);
      case Recheck(s, token, deadline) => assert Allowed(g, pid, s, h.files.At(s), h.past.misled);
      case DecideStart(s, ctx) => assert Allowed(g, pid, s, h.files.At(s), h.past.misled);
      case Validate(s) => assert Allowed(g, pid, s, h.files.At(s), h.past.misled);
      case _ =>
    }
    if p.kind.Command? && p.procd {
      assert Allowed(g, pid, p.kind.s, h.files.At(p.kind.s), h.past.misled);
    }
  }

  // ------------------------------------------------------ typing of programs

  lemma TypedCons(op: Op, rest: seq<Op>, c: Held)
    requires OpTyped(op, rest, c) && Typed(rest, c.After(op))
    requires op.Acquire? && c.locked.None? ==> Typed(AfterRelease(rest, 1), c)
    requires !op.ReadConfig?
    ensures Typed([op] + rest, c)
  {
    assert ([op] + rest)[1..] == rest;
  }

  /** The held locks of a command of `s`, outside the lock and at some depth inside. */
  function Free(k: Kind): Held {
    Held(k, true, None, 0)
  }

  function Inside(k: Kind, s: Service, depth: nat): Held {
    Held(k, true, Some(s), depth)
  }

  lemma SubmitFirst(s: Service, rest: seq<Op>)
    ensures SubmitNext([Submit(s)] + rest, s) && !Halted([Submit(s)] + rest)
    ensures SubmitNext([Release(s)] + ([Submit(s)] + rest), s)
  {
    assert ([Release(s)] + ([Submit(s)] + rest))[1..] == [Submit(s)] + rest;
  }

  lemma TypedReleaseSubmit(s: Service, c: Held, rest: seq<Op>)
    requires c.k == Command(s) && c.procd && c.depth >= 1 && c.locked == Some(s)
    requires c.depth == 1 ==> Typed(rest, Free(c.k))
    requires c.depth > 1 ==> Typed(rest, Inside(c.k, s, c.depth - 1))
    requires Plain(rest) && !Halted(rest) && !SubmitNext(rest, s)
    ensures Typed([Release(s)] + ([Submit(s)] + rest), c) && Plain([Release(s)] + ([Submit(s)] + rest))
  {
    hide Typed, AfterRelease, Clears;
    var t3 := [Submit(s)] + rest;
    TypedCons(Submit(s), rest, c.After(Release(s)));
    assert Plain(t3);
    TypedCons(Release(s), t3, c);
  }

  lemma TypedDecide(s: Service, ctx: Context, c: Held, rest: seq<Op>)
    requires c.k == Command(s) && c.procd && c.depth >= 1 && c.locked == Some(s)
    requires c.depth == 1 ==> Typed(rest, Free(c.k))
    requires c.depth > 1 ==> Typed(rest, Inside(c.k, s, c.depth - 1))
    requires Plain(rest) && !Halted(rest) && !SubmitNext(rest, s)
    ensures Typed([DecideStart(s, ctx)] + ([Release(s)] + ([Submit(s)] + rest)), c)
  {
    TypedReleaseSubmit(s, c, rest);
    SubmitFirst(s, rest);
    hide Plain, Halted, AfterRelease;
    TypedCons(DecideStart(s, ctx), [Release(s)] + ([Submit(s)] + rest), c);
  }

  lemma StartBodyShape(s: Service, ctx: Context, rest: seq<Op>)
    ensures StartBody(s, ctx) + rest == [Acquire(s)] + ([DecideStart(s, ctx)] + ([Release(s)] + ([Submit(s)] + rest)))
  {
  }

  lemma TypedStartBody(s: Service, ctx: Context, c: Held, rest: seq<Op>)
    requires c == Free(Command(s)) || (c.depth >= 1 && c == Inside(Command(s), s, c.depth))
    requires Typed(rest, c) && Plain(rest) && !Halted(rest) && !SubmitNext(rest, s)
    ensures Typed(StartBody(s, ctx) + rest, c)
  {
    TypedDecide(s, ctx, Inside(Command(s), s, c.depth + 1), rest);
    var t3 := [Submit(s)] + rest;
    SkipTwo(DecideStart(s, ctx), s, t3);
    SubmitFirst(s, rest);
    hide Plain, Halted;
    TypedCons(Acquire(s), [DecideStart(s, ctx)] + ([Release(s)] + t3), c);
    StartBodyShape(s, ctx, rest);
  }

  /** After one critical operation comes the release. */
  lemma SkipTwo(op: Op, s: Service, rest: seq<Op>)
    requires !op.Acquire? && !op.Release?
    ensures AfterRelease([op] + ([Release(s)] + rest), 1) == rest
  {
    var t := [Release(s)] + rest;
    assert t[1..] == rest && ([op] + t)[1..] == t;
    assert AfterRelease(t, 1) == AfterRelease(rest, 0);
  }

  lemma TypedKill(s: Service, rest: seq<Op>, c: Held)
    requires c.k == Command(s) && c.procd && Typed(rest, c)
    ensures Typed([Kill(s)] + ([Clean(s)] + rest), c)
  {
    TypedCons(Clean(s), rest, c);
    TypedCons(Kill(s), [Clean(s)] + rest, c);
  }

  /** The operations of stop from the release on. */
  lemma TypedStopTail(s: Service, rest: seq<Op>)
    requires Typed(rest, Free(Command(s))) && Plain(rest)
    ensures var t2 := [Release(s)] + ([Kill(s)] + ([Clean(s)] + rest));
      Typed(t2, Inside(Command(s), s, 1)) && Plain(t2) && Clears(t2, s)
    ensures Typed([Kill(s)] + ([Clean(s)] + rest), Free(Command(s)))
  {
    TypedKill(s, rest, Free(Command(s)));
    var t3 := [Kill(s)] + ([Clean(s)] + rest);
    assert Plain(t3);
    TypedCons(Release(s), t3, Inside(Command(s), s, 1));
    assert ([Release(s)] + t3)[1..] == t3 && Clears(t3, s);
  }

  lemma TypedStopBody(s: Service, rest: seq<Op>)
    requires Typed(rest, Free(Command(s)))
    requires Plain(rest)
    ensures Typed(StopBody(s) + rest, Free(Command(s)))
  {
    var free, inner := Free(Command(s)), Inside(Command(s), s, 1);
    var t3 := [Kill(s)] + ([Clean(s)] + rest);
    var t2 := [Release(s)] + t3;
    TypedStopTail(s, rest);
    TypedCons(StopLine(s), t2, inner);
    SkipTwo(StopLine(s), s, t3);
    TypedCons(Acquire(s), [StopLine(s)] + t2, free);
    StopBodyShape(s, rest);
  }

  lemma StopBodyShape(s: Service, rest: seq<Op>)
    ensures StopBody(s) + rest == [Acquire(s)] + ([StopLine(s)] + ([Release(s)] + ([Kill(s)] + ([Clean(s)] + rest))))
  {
  }

  lemma TypedArm(s: Service, rest: seq<Op>)
    requires Typed(rest, Free(Scheduler)) && Plain(rest)
    ensures Typed([Acquire(s)] + ([ArmWait(s)] + ([Release(s)] + rest)), Free(Scheduler))
  {
    var inner := Inside(Scheduler, s, 1);
    TypedCons(Release(s), rest, inner);
    TypedCons(ArmWait(s), [Release(s)] + rest, inner);
    SkipTwo(ArmWait(s), s, rest);
    TypedCons(Acquire(s), [ArmWait(s)] + ([Release(s)] + rest), Free(Scheduler));
  }

  lemma TypedScheduleBody(s: Service, rest: seq<Op>)
    requires Typed(rest, Free(Scheduler)) && Plain(rest)
    ensures Typed(ScheduleBody(s) + rest, Free(Scheduler))
  {
    var t4 := [Supervise(s)] + rest;
    TypedCons(Supervise(s), rest, Free(Scheduler));
    TypedArm(s, t4);
    var t1 := [Acquire(s)] + ([ArmWait(s)] + ([Release(s)] + t4));
    var t := [ReadConfig(s)] + t1;
    assert t[1..] == t1 && t[5..] == rest;
    assert ScheduleBody(s) + rest == t;
  }

  lemma TypedCancel(s: Service, rest: seq<Op>)
    requires Typed(rest, Free(Scheduler)) && Plain(rest)
    ensures Typed([Acquire(s), CancelWait(s), Release(s)] + rest, Free(Scheduler))
  {
    var free, inner := Free(Scheduler), Inside(Scheduler, s, 1);
    var t2 := [Release(s)] + rest;
    TypedCons(Release(s), rest, inner);
    TypedCons(CancelWait(s), t2, inner);
    SkipTwo(CancelWait(s), s, rest);
    TypedCons(Acquire(s), [CancelWait(s)] + t2, free);
    assert [Acquire(s), CancelWait(s), Release(s)] + rest == [Acquire(s)] + ([CancelWait(s)] + t2);
  }

  /** What a gate puts in front of its release, and what a reload runs under its lock. */
  lemma TypedUnderLock(s: Service, ctx: Context)
    ensures Typed([Release(s)], Inside(Command(s), s, 1))
    ensures Typed(StartBody(s, ctx) + [Release(s)], Inside(Command(s), s, 1))
    ensures Typed([Kill(s), Clean(s)] + StartBody(s, ctx) + [Release(s)], Inside(Command(s), s, 1))
  {
    var inner := Inside(Command(s), s, 1);
    TypedCons(Release(s), [], inner);
    assert [Release(s)] + [] == [Release(s)];
    TypedStartBody(s, ctx, inner, [Release(s)]);
    var t := StartBody(s, ctx) + [Release(s)];
    TypedCons(Clean(s), t, inner);
    TypedCons(Kill(s), [Clean(s)] + t, inner);
    assert [Kill(s), Clean(s)] + StartBody(s, ctx) + [Release(s)] == [Kill(s)] + ([Clean(s)] + t);
  }

  lemma TypedTake(k: Kind, body: seq<Op>)
    requires !k.Runner? && Typed(body, Free(k))
    requires !Halted(body) && (k.Command? ==> !SubmitNext(body, k.s))
    ensures Typed([TakeProcd(LockOf(k))] + body, Held(k, false, None, 0))
  {
    TypedCons(TakeProcd(LockOf(k)), body, Held(k, false, None, 0));
  }

  lemma TypedGated(s: Service, gate: Op)
    requires gate.LinkGate? || gate.ExpiryGate?
    requires gate.s == s
    ensures Typed([TakeProcd(ServiceLock(s)), Acquire(s), gate, Release(s)], Held(Command(s), false, None, 0))
  {
    TypedUnderLock(s, Unknown);
    TypedCons(gate, [Release(s)], Inside(Command(s), s, 1));
    SkipTwo(gate, s, []);
    assert [gate] + [Release(s)] == [gate] + ([Release(s)] + []);
    TypedCons(Acquire(s), [gate] + [Release(s)], Free(Command(s)));
    TypedTake(Command(s), [Acquire(s)] + ([gate] + [Release(s)]));
    assert [TakeProcd(ServiceLock(s)), Acquire(s), gate, Release(s)]
        == [TakeProcd(ServiceLock(s))] + ([Acquire(s)] + ([gate] + [Release(s)]));
  }

  lemma TypedReload(s: Service)
    ensures Typed(Program(Reload(s)), Held(Command(s), false, None, 0))
  {
    var t := [Kill(s), Clean(s)] + StartBody(s, ManualStart) + [Release(s)];
    TypedUnderLock(s, ManualStart);
    assert t == [Kill(s), Clean(s), Acquire(s), DecideStart(s, ManualStart), Release(s), Submit(s), Release(s)];
    SkipReloadBody(s);
    TypedCons(Acquire(s), t, Free(Command(s)));
    TypedTake(Command(s), [Acquire(s)] + t);
    assert Program(Reload(s)) == [TakeProcd(ServiceLock(s))] + ([Acquire(s)] + t);
  }

  lemma TypedSchedulerStart()
    ensures Typed(Program(SchedulerStart), Held(Scheduler, false, None, 0))
  {
    var none: seq<Op> := [];
    TypedScheduleBody(FakeHttp, none);
    TypedScheduleBody(FakeSip, ScheduleBody(FakeHttp) + none);
    TypedTake(Scheduler, ScheduleBody(FakeSip) + (ScheduleBody(FakeHttp) + none));
    assert Program(SchedulerStart) == [TakeProcd(SchedulerLock)] + (ScheduleBody(FakeSip) + (ScheduleBody(FakeHttp) + none));
  }

  lemma TypedSchedulerStop()
    ensures Typed(Program(SchedulerStop), Held(Scheduler, false, None, 0))
  {
    var none: seq<Op> := [];
    TypedCancelBody(none);
    TypedCancelBody(CancelBody() + none);
    TypedTake(Scheduler, CancelBody() + (CancelBody() + none));
    assert Program(SchedulerStop) == [TakeProcd(SchedulerLock)] + (CancelBody() + (CancelBody() + none));
  }

  lemma TypedCancelBody(rest: seq<Op>)
    requires Typed(rest, Free(Scheduler)) && Plain(rest)
    ensures Typed(CancelBody() + rest, Free(Scheduler))
  {
    var half := [Acquire(FakeHttp), CancelWait(FakeHttp), Release(FakeHttp)];
    TypedCancel(FakeHttp, rest);
    assert Plain(half + rest);
    hide Plain, Typed;
    TypedCancel(FakeSip, half + rest);
    assert CancelBody() + rest == [Acquire(FakeSip), CancelWait(FakeSip), Release(FakeSip)] + (half + rest);
  }

  lemma TypedStart(s: Service, ctx: Context)
    requires !ctx.BootExpired? && !ctx.IfdownDefinition?
    ensures Typed(StartBody(s, ctx), Free(Command(s)))
    ensures Typed([TakeProcd(ServiceLock(s))] + StartBody(s, ctx), Held(Command(s), false, None, 0))
  {
    TypedStartBody(s, ctx, Free(Command(s)), []);
    assert StartBody(s, ctx) + [] == StartBody(s, ctx);
    TypedTake(Command(s), StartBody(s, ctx));
  }

  lemma TypedStop(s: Service)
    ensures Typed([TakeProcd(ServiceLock(s))] + StopBody(s), Held(Command(s), false, None, 0))
  {
    TypedStopBody(s, []);
    assert StopBody(s) + [] == StopBody(s);
    TypedTake(Command(s), StopBody(s));
  }

  lemma TypedRestart(s: Service)
    ensures Typed(Program(RestartService(s)), Held(Command(s), false, None, 0))
  {
    TypedStart(s, ManualStart);
    TypedStopBody(s, StartBody(s, ManualStart));
    TypedTake(Command(s), StopBody(s) + StartBody(s, ManualStart));
    assert Program(RestartService(s)) == [TakeProcd(ServiceLock(s))] + (StopBody(s) + StartBody(s, ManualStart));
  }

  lemma ProgramsAreTyped(r: Request)
    ensures Typed(Program(r), Held(KindOf(r), false, None, 0))
  {
    match r {
      case StartAs(s, automatic) => TypedStart(s, if automatic then Automatic else ManualStart);
      case StopService(s) => TypedStop(s);
      case RestartService(s) => TypedRestart(s);
      case Reload(s) => TypedReload(s);
      case LinkEvent(s, up) => TypedGated(s, LinkGate(s, up));
      case SchedulerStart => TypedSchedulerStart();
      case SchedulerStop => TypedSchedulerStop();
    }
  }

  /** A reload whose lock cannot be taken returns without touching anything. */
  lemma SkipReloadBody(s: Service)
    ensures AfterRelease([Kill(s), Clean(s), Acquire(s), DecideStart(s, ManualStart), Release(s), Submit(s), Release(s)], 1) == []
  {
    var t := [Kill(s), Clean(s), Acquire(s), DecideStart(s, ManualStart), Release(s), Submit(s), Release(s)];
    assert AfterRelease(t, 1) == AfterRelease(t[1..], 1) == AfterRelease(t[2..], 1) by { assert t[1..][1..] == t[2..]; }
    assert AfterRelease(t[2..], 1) == AfterRelease(t[3..], 2) by { assert t[2..][1..] == t[3..]; }
    assert AfterRelease(t[3..], 2) == AfterRelease(t[4..], 2) by { assert t[3..][1..] == t[4..]; }
    assert AfterRelease(t[4..], 2) == AfterRelease(t[5..], 1) by { assert t[4..][1..] == t[5..]; }
    assert AfterRelease(t[5..], 1) == AfterRelease(t[6..], 1) by { assert t[5..][1..] == t[6..]; }
    assert AfterRelease(t[6..], 1) == AfterRelease(t[7..], 0) by { assert t[6..][1..] == t[7..]; }
    assert t[7..] == [];
  }
}
