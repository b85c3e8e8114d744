/** Ties the protocol's programs to the init script: a program that runs without
    interference has the effect proved of the corresponding method of
    `Lifecycle.Shell`. */
module ProtocolSolo {
  import opened Common
  import opened Lifecycle
  import opened Protocol

  function Weight(op: Op): nat {
    if op.DecideStart? then 4 else if op.LinkGate? || op.ExpiryGate? then 10 else 1
  }

  function Total(todo: seq<Op>): nat {
    if todo == [] then 0 else Weight(todo[0]) + Total(todo[1..])
  }

  lemma {:induction false} TotalConcat(a: seq<Op>, b: seq<Op>)
    ensures Total(a + b) == Total(a) + Total(b)
  {
    if a == [] {
      assert a + b == b;
    } else {
      assert (a + b)[1..] == a[1..] + b;
      TotalConcat(a[1..], b);
    }
  }

  lemma TotalSkip(todo: seq<Op>, depth: nat)
    ensures Total(AfterRelease(todo, depth)) <= Total(todo)
  {
  }

  /** One operation of a worker that meets nobody: its locks are always free. */
  function Alone(v: Svc, p: Proc, e: Env, tok: Token): (Svc, Proc)
    requires p.todo != []
  {
    var q := p.(todo := p.todo[1..]);
    match p.todo[0]
    case TakeProcd(_) => (v, q.(procd := true))
    case Acquire(s) =>
      if p.depth > 0 then (v, q.(depth := p.depth + 1))
      else if e.lockOk then (v, q.(locked := Some(s), depth := 1))
      else (v, q.(todo := AfterRelease(q.todo, 1), plan := Idle))
    case Release(_) =>
      (v, if p.depth <= 1 then q.(locked := None, depth := 0) else q.(depth := p.depth - 1))
    case Poll(_, _, _) => (v, q)
    case CheckClock(_, _, _) => (v, q)
    case Recheck(_, _, _) => (v, q)
    case Supervise(_) => (v, q)
    case Join(_) => (v, q)
    case op => Local(op, v, q, e, tok)
  }

  lemma LocalShrinks(op: Op, v: Svc, q: Proc, e: Env, tok: Token)
    requires !LockOp(op) && !op.Poll? && !op.CheckClock? && !op.Recheck?
    ensures Total(Local(op, v, q, e, tok).1.todo) < Weight(op) + Total(q.todo)
  {
    hide StartBody, DecisionBody, Decide, Arm, WaitCancelled, LinkRecorded;
    match op
    case DecideStart(s, ctx) =>
      var o := Decide(ctx, v, e).1;
      TotalConcat(DecisionBody(s, o), q.todo);
      DecisionBodyTotal(s, o);
    case LinkGate(s, up) => LinkBodyTotal(s, if up then Automatic else IfdownDefinition, q.todo);
    case ExpiryGate(s, token, deadline) =>
      StartBodyTotal(s, BootExpired(token, deadline));
      TotalConcat(StartBody(s, BootExpired(token, deadline)), q.todo);
    case ReadConfig(_) =>
      if |q.todo| >= 4 { TotalConcat(q.todo[..4], q.todo[4..]); assert q.todo[..4] + q.todo[4..] == q.todo; }
    case _ =>
  }

  lemma AloneShrinks(v: Svc, p: Proc, e: Env, tok: Token)
    requires p.todo != []
    ensures Total(Alone(v, p, e, tok).1.todo) < Total(p.todo)
  {
    hide Local;
    var op := p.todo[0];
    if op.Acquire? {
      TotalSkip(p.todo[1..], 1);
    } else if !LockOp(op) && !op.Poll? && !op.CheckClock? && !op.Recheck? {
      LocalShrinks(op, v, p.(todo := p.todo[1..]), e, tok);
    }
  }

  lemma LinkBodyTotal(s: Service, ctx: Context, rest: seq<Op>)
    ensures Total([Kill(s), Clean(s)] + StartBody(s, ctx) + rest) == 9 + Total(rest)
  {
    DecisionBodyTotal(s, Disabled);
    TotalConcat([Kill(s), Clean(s)], StartBody(s, ctx));
    StartBodyTotal(s, ctx);
    TotalConcat([Kill(s), Clean(s)] + StartBody(s, ctx), rest);
  }

  lemma DecisionBodyTotal(s: Service, o: Outcome)
    ensures Total(DecisionBody(s, o)) <= 3
    ensures o == Disabled ==> Total(DecisionBody(s, o)) == 2
  {
    assert [Kill(s), Clean(s), Validate(s)][1..] == [Clean(s), Validate(s)];
    assert [Clean(s), Validate(s)][1..] == [Validate(s)];
    assert [Kill(s), Clean(s)][1..] == [Clean(s)];
    assert [Clean(s)][1..] == [] && [Validate(s)][1..] == [];
    var none: seq<Op> := [];
    assert Total(none) == 0 && Total([Clean(s)]) == 1 && Total([Validate(s)]) == 1;
    assert Total([Clean(s), Validate(s)]) == 2;
  }

  lemma StartBodyTotal(s: Service, ctx: Context)
    ensures Total(StartBody(s, ctx)) == 7
  {
    var t := StartBody(s, ctx);
    assert t[1..] == [DecideStart(s, ctx), Release(s), Submit(s)];
    assert t[1..][1..] == [Release(s), Submit(s)];
    assert t[1..][1..][1..] == [Submit(s)];
  }

  /** The files after the whole program has run alone. */
  function Solo(v: Svc, p: Proc, e: Env, tok: Token): Svc
    decreases Total(p.todo)
  {
    if p.todo == [] then v
    else
      AloneShrinks(v, p, e, tok);
      var (w, q) := Alone(v, p, e, tok);
      Solo(w, q, e, tok)
  }

  /** One operation off the front. */
  lemma SoloOp(v: Svc, p: Proc, e: Env, tok: Token, op: Op, rest: seq<Op>)
    requires p.todo == [op] + rest
    ensures p.(todo := p.todo[1..]) == p.(todo := rest)
    ensures Solo(v, p, e, tok) == Solo(Alone(v, p, e, tok).0, Alone(v, p, e, tok).1, e, tok)
  {
    assert p.todo[1..] == rest;
  }

  /** rc.common's start, run alone, has `StartEffect`. */
  lemma SoloStart(v: Svc, p: Proc, e: Env, tok: Token, s: Service, ctx: Context, rest: seq<Op>)
    requires p.todo == StartBody(s, ctx) + rest && !p.inst && p.plan.Idle?
    requires p.depth > 0 ==> p.locked == Some(s)
    requires p.depth == 0 ==> p.locked.None?
    ensures Solo(v, p, e, tok) == Solo(StartEffect(ctx, v, e, p.depth > 0 || e.lockOk), p.(todo := rest), e, tok)
  {
    hide Solo;
    var t3 := [Submit(s)] + rest;
    var t2 := [Release(s)] + t3;
    var t1 := [DecideStart(s, ctx)] + t2;
    assert p.todo == [Acquire(s)] + t1;
    SoloOp(v, p, e, tok, Acquire(s), t1);
    if p.depth == 0 && !e.lockOk {
      SkipOne(DecideStart(s, ctx), s, t3);
      assert p.(todo := t3, plan := Idle) == p.(todo := t3);
      SoloOp(v, p.(todo := t3), e, tok, Submit(s), rest);
    } else {
      var q := p.(todo := t1, locked := Some(s), depth := p.depth + 1);
      assert Alone(v, p, e, tok) == (v, q);
      SoloDecide(v, q, e, tok, s, ctx, t2);
      var (w, inst) := StartLocked(ctx, v, e);
      SoloOp(w, q.(todo := t2, inst := inst), e, tok, Release(s), t3);
      SoloOp(w, p.(todo := t3, inst := inst), e, tok, Submit(s), rest);
      assert p.(todo := rest, inst := false) == p.(todo := rest);
    }
  }

  lemma SoloDecide(v: Svc, q: Proc, e: Env, tok: Token, s: Service, ctx: Context, t2: seq<Op>)
    requires q.todo == [DecideStart(s, ctx)] + t2 && !q.inst
    ensures var (w, inst) := StartLocked(ctx, v, e);
            Solo(v, q, e, tok) == Solo(w, q.(todo := t2, inst := inst), e, tok)
  {
    hide Solo;
    SoloOp(v, q, e, tok, DecideStart(s, ctx), t2);
    var (w, o) := Decide(ctx, v, e);
    match o
    case Launch =>
      assert DecisionBody(s, o) + t2 == [Kill(s)] + ([Clean(s)] + ([Validate(s)] + t2));
      SoloClear(w, q, e, tok, s, [Validate(s)] + t2);
      SoloOp(Cleared(w), q.(todo := [Validate(s)] + t2), e, tok, Validate(s), t2);
    case Disabled =>
      assert DecisionBody(s, o) + t2 == [Kill(s)] + ([Clean(s)] + t2);
      SoloClear(w, q, e, tok, s, t2);
      assert q.(todo := t2, inst := false) == q.(todo := t2);
    case _ =>
      assert DecisionBody(s, o) + t2 == t2;
      assert q.(todo := t2, inst := false) == q.(todo := t2);
  }

  lemma SoloClear(v: Svc, p: Proc, e: Env, tok: Token, s: Service, rest: seq<Op>)
    ensures Solo(v, p.(todo := [Kill(s)] + ([Clean(s)] + rest)), e, tok) == Solo(Cleared(v), p.(todo := rest), e, tok)
  {
    hide Solo;
    SoloOp(v, p.(todo := [Kill(s)] + ([Clean(s)] + rest)), e, tok, Kill(s), [Clean(s)] + rest);
    SoloOp(v.(registered := false), p.(todo := [Clean(s)] + rest), e, tok, Clean(s), rest);
  }

  lemma SkipOne(op: Op, s: Service, rest: seq<Op>)
    requires !op.Acquire? && !op.Release?
    ensures AfterRelease([op] + ([Release(s)] + rest), 1) == rest
  {
    assert ([op] + ([Release(s)] + rest))[1..] == [Release(s)] + rest && ([Release(s)] + rest)[1..] == rest;
    assert AfterRelease([Release(s)] + rest, 1) == AfterRelease(rest, 0);
  }

  lemma SoloDone(v: Svc, p: Proc, e: Env, tok: Token, s: Service)
    ensures Solo(v, p.(todo := []), e, tok) == v
    ensures Solo(v, p.(todo := [Release(s)]), e, tok) == v
  {
    SoloOp(v, p.(todo := [Release(s)]), e, tok, Release(s), []);
  }

  lemma SoloStop(v: Svc, p: Proc, e: Env, tok: Token, s: Service, rest: seq<Op>)
    requires p.todo == StopBody(s) + rest && p.depth == 0 && p.locked.None? && p.plan.Idle?
    ensures Solo(v, p, e, tok) == Solo(StopEffect(v, e), p.(todo := rest), e, tok)
  {
    hide Solo;
    var t3 := [Kill(s)] + ([Clean(s)] + rest);
    var t2 := [Release(s)] + t3;
    var t1 := [StopLine(s)] + t2;
    assert p.todo == [Acquire(s)] + t1;
    SoloOp(v, p, e, tok, Acquire(s), t1);
    if e.lockOk {
      var q := p.(todo := t1, locked := Some(s), depth := 1);
      var w := if e.bootWriteOk then v.(boot := Some(Cancel("explicit-stop"))) else v;
      SoloOp(v, q, e, tok, StopLine(s), t2);
      SoloOp(w, q.(todo := t2), e, tok, Release(s), t3);
      SoloClear(w, p, e, tok, s, rest);
    } else {
      SkipOne(StopLine(s), s, t3);
      SoloClear(v, p, e, tok, s, rest);
    }
  }

  /** What the programs of one service do when they run alone. */
  ghost function Effect(r: Request, v: Svc, e: Env): Svc
    requires !r.SchedulerStart? && !r.SchedulerStop?
  {
    match r
    case StartAs(_, automatic) => StartEffect(if automatic then Automatic else ManualStart, v, e, e.lockOk)
    case StopService(_) => StopEffect(v, e)
    case RestartService(_) => RestartEffect(v, e, e)
    case Reload(_) => ReloadEffect(v, e)
    case LinkEvent(_, up) => LinkEffect(up, v, e)
  }

  /** Every service command of the protocol, run alone, does exactly what the init
      script's method for it does. */
  lemma SoloIsEffect(r: Request, v: Svc, e: Env, tok: Token)
    requires !r.SchedulerStart? && !r.SchedulerStop?
    ensures Solo(v, NewProc(KindOf(r), Program(r)), e, tok) == Effect(r, v, e)
  {
    hide Solo;
    var s := r.s;
    var p := NewProc(KindOf(r), Program(r));
    var body := Program(r)[1..];
    SoloOp(v, p, e, tok, TakeProcd(ServiceLock(s)), body);
    var q := p.(todo := body, procd := true);
    match r
    case StartAs(_, automatic) =>
      var ctx := if automatic then Automatic else ManualStart;
      assert body == StartBody(s, ctx) + [];
      SoloStart(v, q, e, tok, s, ctx, []);
      SoloDone(Effect(r, v, e), q, e, tok, s);
    case StopService(_) =>
      assert body == StopBody(s) + [];
      SoloStop(v, q, e, tok, s, []);
      SoloDone(Effect(r, v, e), q, e, tok, s);
    case RestartService(_) =>
      var half := StartBody(s, ManualStart) + [];
      assert body == StopBody(s) + half;
      SoloStop(v, q, e, tok, s, half);
      SoloStart(StopEffect(v, e), q.(todo := half), e, tok, s, ManualStart, []);
      SoloDone(Effect(r, v, e), q, e, tok, s);
    case Reload(_) => SoloReload(v, q, e, tok, s);
    case LinkEvent(_, up) => SoloLink(v, q, e, tok, s, up);
  }

  lemma SoloReload(v: Svc, q: Proc, e: Env, tok: Token, s: Service)
    requires q.todo == Program(Reload(s))[1..] && q.depth == 0 && q.locked.None? && !q.inst && q.plan.Idle?
    ensures Solo(v, q, e, tok) == ReloadEffect(v, e)
  {
    hide Solo;
    var start := StartBody(s, ManualStart) + [Release(s)];
    var t := [Kill(s)] + ([Clean(s)] + start);
    assert q.todo == [Acquire(s)] + t;
    SoloOp(v, q, e, tok, Acquire(s), t);
    if e.lockOk {
      var inner := q.(locked := Some(s), depth := 1);
      SoloClear(v, inner, e, tok, s, start);
      SoloStart(Cleared(v), inner.(todo := start), e, tok, s, ManualStart, [Release(s)]);
      SoloDone(ReloadEffect(v, e), inner, e, tok, s);
    } else {
      SkipAll(s);
      assert t == [Kill(s), Clean(s), Acquire(s), DecideStart(s, ManualStart), Release(s), Submit(s), Release(s)];
      SoloDone(v, q, e, tok, s);
    }
  }

  lemma SkipAll(s: Service)
    ensures AfterRelease([Kill(s), Clean(s), Acquire(s), DecideStart(s, ManualStart), Release(s), Submit(s), Release(s)], 1) == []
  {
    var t := [Kill(s), Clean(s), Acquire(s), DecideStart(s, ManualStart), Release(s), Submit(s), Release(s)];
    assert t[1..][1..] == t[2..] && t[2..][1..] == t[3..] && t[3..][1..] == t[4..];
    assert t[4..][1..] == t[5..] && t[5..][1..] == t[6..] && t[6..][1..] == t[7..] == [];
    assert AfterRelease(t[6..], 1) == AfterRelease(t[7..], 0) == [];
    assert AfterRelease(t[5..], 1) == AfterRelease(t[6..], 1);
    assert AfterRelease(t[4..], 2) == AfterRelease(t[5..], 1);
    assert AfterRelease(t[3..], 2) == AfterRelease(t[4..], 2);
    assert AfterRelease(t[2..], 1) == AfterRelease(t[3..], 2);
    assert AfterRelease(t[1..], 1) == AfterRelease(t[2..], 1);
  }

  /** A gate, whatever it is, skips to its end when the lock cannot be had. */
  lemma SoloGate(v: Svc, q: Proc, e: Env, tok: Token, s: Service, gate: Op)
    requires q.todo == [Acquire(s)] + ([gate] + [Release(s)]) && q.depth == 0 && q.locked.None? && q.plan.Idle?
    requires gate.LinkGate? || gate.ExpiryGate?
    ensures var inner := q.(todo := [gate] + [Release(s)], locked := Some(s), depth := 1);
            Solo(v, q, e, tok) == if e.lockOk then Solo(Alone(v, inner, e, tok).0, Alone(v, inner, e, tok).1, e, tok) else v
  {
    var t := [gate] + [Release(s)];
    SoloOp(v, q, e, tok, Acquire(s), t);
    if e.lockOk {
      SoloOp(v, q.(todo := t, locked := Some(s), depth := 1), e, tok, gate, [Release(s)]);
    } else {
      assert t[1..] == [Release(s)] && [Release(s)][1..] == [];
      assert AfterRelease(t, 1) == AfterRelease([Release(s)], 1) == AfterRelease([], 0) == [];
      SoloDone(v, q, e, tok, s);
    }
  }

  lemma SoloLink(v: Svc, q: Proc, e: Env, tok: Token, s: Service, up: bool)
    requires q.todo == Program(LinkEvent(s, up))[1..] && q.depth == 0 && q.locked.None? && !q.inst && q.plan.Idle?
    ensures Solo(v, q, e, tok) == LinkEffect(up, v, e)
  {
    hide Solo;
    var gate := LinkGate(s, up);
    assert q.todo == [Acquire(s)] + ([gate] + [Release(s)]);
    SoloGate(v, q, e, tok, s, gate);
    var inner := q.(todo := [gate] + [Release(s)], locked := Some(s), depth := 1);
    assert inner.todo[1..] == [Release(s)];
    SoloDone(LinkEffect(up, v, e), inner, e, tok, s);
    var w := LinkRecorded(v, if up then Up else Down, e.linkReadOk, e.linkWriteOk);
    if e.lockOk && e.matches && (up ==> e.present) && w.Some? {
      var ctx := if up then Automatic else IfdownDefinition;
      var start := StartBody(s, ctx) + [Release(s)];
      assert [Kill(s), Clean(s)] + StartBody(s, ctx) + [Release(s)] == [Kill(s)] + ([Clean(s)] + start);
      SoloClear(w.value, inner, e, tok, s, start);
      SoloStart(Cleared(w.value), inner.(todo := start), e, tok, s, ctx, [Release(s)]);
    }
  }

  /** The same for `boot_expired`, which runners and the scheduler start. */
  lemma SoloExpiry(v: Svc, e: Env, tok: Token, s: Service, token: Token, deadline: nat)
    ensures Solo(v, NewProc(Command(s), ExpiryProgram(s, token, deadline)), e, tok) == ExpiryEffect(token, deadline, v, e)
  {
    hide Solo;
    var gate := ExpiryGate(s, token, deadline);
    var p := NewProc(Command(s), ExpiryProgram(s, token, deadline));
    var body := [Acquire(s)] + ([gate] + [Release(s)]);
    SoloOp(v, p, e, tok, TakeProcd(ServiceLock(s)), body);
    var q := p.(todo := body, procd := true);
    SoloGate(v, q, e, tok, s, gate);
    var inner := q.(todo := [gate] + [Release(s)], locked := Some(s), depth := 1);
    assert inner.todo[1..] == [Release(s)];
    SoloDone(ExpiryEffect(token, deadline, v, e), inner, e, tok, s);
    if e.lockOk && e.bootReadOk && v.Waiting(token, deadline) {
      SoloStart(v, inner.(todo := StartBody(s, BootExpired(token, deadline)) + [Release(s)]), e, tok, s,
                BootExpired(token, deadline), [Release(s)]);
    }
  }

  // ------------------------------------------------------------ the scheduler

  /** The wait the scheduler goes on to supervise. */
  function PlanFor(wait: Option<(Token, Delay)>, at: nat): Plan {
    if wait.None? then Idle else Armed(wait.value.0, wait.value.1, at)
  }

  /** One service of the scheduler's start: what it leaves in the files, and the wait it goes on to supervise. */
  lemma SoloSchedule(v: Svc, p: Proc, e: Env, tok: Token, s: Service, rest: seq<Op>)
    requires p.todo == ScheduleBody(s) + rest && p.depth == 0 && p.locked.None? && p.plan.Idle?
    ensures var (w, wait) := ScheduleEffect(v, e.uptime, tok, e);
            Solo(v, p, e, tok) ==
              if e.uptime.None? then Solo(w, p.(todo := rest), e, tok)
              else Solo(w, p.(todo := [Supervise(s)] + rest, plan := PlanFor(wait, e.uptime.value)), e, tok)
  {
    hide Solo, Arm;
    var t1 := [Acquire(s)] + ([ArmWait(s)] + ([Release(s)] + ([Supervise(s)] + rest)));
    assert p.todo == [ReadConfig(s)] + t1;
    SoloOp(v, p, e, tok, ReadConfig(s), t1);
    if e.uptime.None? {
      assert t1[4..] == rest;
    } else {
      SoloArm(v, p.(todo := t1, plan := Read(e.enabled, e.delay, e.uptime.value)), e, tok, s, [Supervise(s)] + rest);
    }
  }

  lemma SoloArm(v: Svc, q: Proc, e: Env, tok: Token, s: Service, rest: seq<Op>)
    requires q.todo == [Acquire(s)] + ([ArmWait(s)] + ([Release(s)] + rest)) && q.depth == 0 && q.locked.None?
    requires e.uptime.Some? && q.plan == Read(e.enabled, e.delay, e.uptime.value)
    ensures var (w, wait) := ScheduleEffect(v, e.uptime, tok, e);
            Solo(v, q, e, tok) == Solo(w, q.(todo := rest, plan := PlanFor(wait, e.uptime.value)), e, tok)
  {
    hide Solo, Arm;
    var t3 := [Release(s)] + rest;
    var t2 := [ArmWait(s)] + t3;
    SoloOp(v, q, e, tok, Acquire(s), t2);
    if e.lockOk {
      var (w, wait) := ScheduleEffect(v, e.uptime, tok, e);
      var r := q.(locked := Some(s), depth := 1);
      SoloOp(v, r.(todo := t2), e, tok, ArmWait(s), t3);
      SoloOp(w, r.(todo := t3, plan := PlanFor(wait, e.uptime.value)), e, tok, Release(s), rest);
    } else {
      SkipOne(ArmWait(s), s, rest);
    }
  }

  /** One service of the scheduler's stop. */
  lemma SoloCancel(v: Svc, p: Proc, e: Env, tok: Token, s: Service, rest: seq<Op>)
    requires p.todo == [Acquire(s), CancelWait(s), Release(s)] + rest && p.depth == 0 && p.locked.None? && p.plan.Idle?
    ensures Solo(v, p, e, tok) == Solo(WaitCancelled(v, e.lockOk && e.bootReadOk && e.bootWriteOk), p.(todo := rest), e, tok)
  {
    hide Solo, WaitCancelled;
    var t2 := [Release(s)] + rest;
    var t1 := [CancelWait(s)] + t2;
    assert p.todo == [Acquire(s)] + t1;
    SoloOp(v, p, e, tok, Acquire(s), t1);
    if e.lockOk {
      var w := WaitCancelled(v, e.bootReadOk && e.bootWriteOk);
      SoloOp(v, p.(todo := t1, locked := Some(s), depth := 1), e, tok, CancelWait(s), t2);
      SoloOp(w, p.(todo := t2, locked := Some(s), depth := 1), e, tok, Release(s), rest);
      assert p.(todo := rest, locked := None, depth := 0) == p.(todo := rest);
    } else {
      SkipOne(CancelWait(s), s, rest);
      assert WaitCancelled(v, false) == v by { NotCancelled(v); }
      assert p.(todo := rest, plan := Idle) == p.(todo := rest);
    }
  }

  lemma NotCancelled(v: Svc)
    ensures WaitCancelled(v, false) == v
  {
  }

  /** What is visible of a step: the files and the process that took it. */
  ghost predicate Shows(h: Sys, files: Files, pid: Pid, q: Proc) {
    h.files == files && (if q.todo == [] then pid !in h.procs else pid in h.procs && h.procs[pid] == q)
  }

  lemma LocalStepIsAlone(g: Sys, pid: Pid, e: Env, tok: Token)
    requires CanRun(g, pid)
    requires var op := g.procs[pid].todo[0];
             !LockOp(op)
    ensures var p := g.procs[pid];
            var (v, q) := Local(p.todo[0], g.files.At(p.todo[0].s), p.(todo := p.todo[1..]), e, tok);
            Shows(Step(g, pid, e, tok), g.files.With(p.todo[0].s, v), pid, q)
  {
    hide Local;
  }

  /** `Alone` is the system's own step, seen from the process that takes it. */
  lemma StepIsAlone(g: Sys, pid: Pid, e: Env, tok: Token, s: Service)
    requires CanRun(g, pid)
    requires var op := g.procs[pid].todo[0];
             !op.Poll? && !op.CheckClock? && !op.Recheck? && !op.Supervise? && !op.Join?
             && (op.TakeProcd? || op.s == s)
    requires g.procs[pid].depth > 0 <==> g.procs[pid].locked == Some(s)
    requires g.procs[pid].todo[0].Release? ==> g.procs[pid].depth > 0
    ensures var (v, q) := Alone(g.files.At(s), g.procs[pid], e, tok);
            Shows(Step(g, pid, e, tok), g.files.With(s, v), pid, q)
  {
    var op := g.procs[pid].todo[0];
    if op.TakeProcd? || op.Acquire? || op.Release? {
      hide Local, AfterRelease;
      assert g.files.With(s, g.files.At(s)) == g.files;
    } else {
      hide Step, Local;
      LocalStepIsAlone(g, pid, e, tok);
    }
  }
}
