/** The operations that read or write a service's own files keep the invariant,
    and with them every event does. */
module ProtocolLocal {
  import opened Common
  import opened Lifecycle
  import opened Protocol
  import opened ProtocolInvariant
  import opened ProtocolPreservation

  /** The state after process `pid` has turned the files of `s` into `v` and itself into `q`. */
  function Wrote(g: Sys, pid: Pid, s: Service, v: Svc, q: Proc, past: History): Sys {
    Continue(g.(files := g.files.With(s, v), past := past), pid, q)
  }

  lemma WroteKeepsInv(g: Sys, pid: Pid, s: Service, v: Svc, q: Proc, past: History)
    requires Inv(g) && pid in g.procs && g.past.Before(past)
    requires var p := g.procs[pid]; q.locked == p.locked && q.procd == p.procd && (q.procd ==> q.kind == p.kind)
    requires g.procs[pid].procd && g.procs[pid].kind.Command? ==> g.procs[pid].kind.s == s
    requires q.todo == [] ==> q.locked.None?
    requires g.procs[pid].kind.Command? ==> q.kind == g.procs[pid].kind
    requires Allowed(g, pid, s, v, past.misled)
    requires var h := Wrote(g, pid, s, v, q, past); (q.todo != [] ==> ProcOk(h, q)) && SvcOk(h, s)
    ensures Inv(Wrote(g, pid, s, v, q, past))
  {
    hide ProcOk, SvcOk, LocksOk;
    var m := g.(files := g.files.With(s, v), past := past);
    var h := Continue(m, pid, q);
    LocksSame(g, m, pid, q);
    ContinueFrame(g, m, pid, q);
    forall o ensures SvcOk(h, o) {
      if o != s {
        NotWorking(g, pid, o);
        FrameElsewhere(g, h, pid, o);
      }
    }
    forall o ensures Allowed(g, pid, o, h.files.At(o), h.past.misled) { if o == s { assert h.files.At(o) == v; } }
    ContinueKeepsInv(g, m, pid, q);
  }

  lemma FrameElsewhere(g: Sys, h: Sys, pid: Pid, s: Service)
    requires Inv(g) && pid in g.procs && !Working(g, s, pid)
    requires h.files.At(s) == g.files.At(s) && g.past.Before(h.past)
    requires forall l | l in g.procd && g.procd[l] != pid :: l in h.procd && h.procd[l] == g.procd[l]
    requires forall c | c in g.procs && c != pid :: c in h.procs && h.procs[c] == g.procs[c]
    ensures SvcOk(h, s)
  {
    if ServiceLock(s) in g.procd { assert g.procd[ServiceLock(s)] in g.procs; }
    SvcElsewhere(g, h, pid, s);
  }

  /** The step of an operation on a service's files. */
  lemma LocalStep(g: Sys, pid: Pid, e: Env, tok: Token)
    requires CanRun(g, pid) && !LockOp(g.procs[pid].todo[0])
    ensures var p, op := g.procs[pid], g.procs[pid].todo[0];
      var (v, q) := Local(op, g.files.At(op.s), p.(todo := p.todo[1..]), e, tok);
      Step(g, pid, e, tok) == Wrote(g, pid, op.s, v, q, Remembered(g, p, e, tok))
    ensures var op := g.procs[pid].todo[0];
      !op.DecideStart? && !op.ArmWait? && !op.Poll? ==> Remembered(g, g.procs[pid], e, tok) == g.past
  {
    hide Local, Continue, Spoiled;
  }

  /** What is left of `p`'s program still holds when `p` itself wrote the files of `s`. */
  lemma RestOk(g: Sys, h: Sys, pid: Pid, q: Proc, s: Service, i: nat)
    requires Inv(g) && pid in g.procs && 0 < i < |g.procs[pid].todo|
    requires var p := g.procs[pid]; q.kind == p.kind && q.procd == p.procd && q.locked == p.locked
    requires forall o :: Allowed(g, pid, o, h.files.At(o), h.past.misled) && (o != s ==> h.files.At(o) == g.files.At(o))
    requires h.files.At(s).boot == g.files.At(s).boot || Plain(g.procs[pid].todo[1..])
    requires h.now == g.now && g.past.Before(h.past) && g.next == h.next
    requires forall c | c in h.procs :: c in g.procs && (g.procs[c].kind.Command? ==> h.procs[c].kind == g.procs[c].kind)
    ensures OpOk(h, q, g.procs[pid].todo[i])
  {
    hide SvcOk, HeadOk, PlanOk, Typed;
    var p := g.procs[pid];
    assert ProcOk(g, p);
    assert OpOk(g, p, p.todo[i]);
    assert p.todo[i] == p.todo[1..][i - 1];
    var op := p.todo[i];
    match op
    case ExpiryGate(o, token, deadline) => assert Allowed(g, pid, o, h.files.At(o), h.past.misled);
    case Recheck(o, token, deadline) => assert Allowed(g, pid, o, h.files.At(o), h.past.misled);
    case DecideStart(o, ctx) => assert Allowed(g, pid, o, h.files.At(o), h.past.misled);
    case Validate(o) => assert Allowed(g, pid, o, h.files.At(o), h.past.misled);
    case _ =>
  }

  /** One step of the worker of `s`: it puts `body` in front of what is left and
      turns the files into `v`. */
  lemma WorkerStep(g: Sys, pid: Pid, s: Service, v: Svc, q: Proc, body: seq<Op>, past: History)
    requires Inv(g) && pid in g.procs && g.procs[pid].kind == Command(s) && g.procs[pid].procd
    requires var p := g.procs[pid];
             q == p.(todo := body + p.todo[1..], inst := q.inst)
    requires g.past.Before(past) && Allowed(g, pid, s, v, past.misled)
    requires v.boot == g.files.At(s).boot || Plain(g.procs[pid].todo[1..])
    requires Typed(q.todo, HeldBy(q))
    requires var h := Wrote(g, pid, s, v, q, past);
             && (q.todo != [] ==> HeadOk(h, q))
             && (forall i | 0 <= i < |body| :: OpOk(h, q, body[i]))
    requires v.boot.Some? && v.boot.value.Wait? ==> v.boot == g.files.At(s).boot
    requires v.registered ==> v.Settled() || s in past.misled || Clears(q.todo, s)
    requires v.nft ==> v.registered || s in past.failed + past.misled || (q.todo != [] && q.todo[0] == Clean(s))
    ensures Inv(Wrote(g, pid, s, v, q, past))
  {
    hide SvcOk, LocksOk, HeadOk, ProcOk, Allowed, Typed, Continue;
    var p := g.procs[pid];
    var h := Wrote(g, pid, s, v, q, past);
    assert ProcOk(g, p);
    ProcParts(g, p);
    EndsFree(q);
    if q.todo != [] {
      forall i | 0 <= i < |q.todo| ensures OpOk(h, q, q.todo[i]) {
        if i >= |body| { OwnRest(g, pid, s, v, q, past, i - |body| + 1); }
      }
      MakeProcOk(h, q);
    }
    WorkerSvc(g, pid, s, v, q, past);
    WroteKeepsInv(g, pid, s, v, q, past);
  }

  /** A program that is over has given its lock back. */
  lemma EndsFree(q: Proc)
    requires Typed(q.todo, HeldBy(q))
    ensures q.todo == [] ==> q.locked.None?
  {
  }

  lemma OwnRest(g: Sys, pid: Pid, s: Service, v: Svc, q: Proc, past: History, i: nat)
    requires Inv(g) && pid in g.procs && 0 < i < |g.procs[pid].todo|
    requires var p := g.procs[pid]; q.kind == p.kind && q.procd == p.procd && q.locked == p.locked
    requires g.past.Before(past) && Allowed(g, pid, s, v, past.misled) && q.todo != []
    requires v.boot == g.files.At(s).boot || Plain(g.procs[pid].todo[1..])
    ensures OpOk(Wrote(g, pid, s, v, q, past), q, g.procs[pid].todo[i])
  {
    var h := Wrote(g, pid, s, v, q, past);
    forall o ensures Allowed(g, pid, o, h.files.At(o), h.past.misled) && (o != s ==> h.files.At(o) == g.files.At(o)) {
      assert o == s ==> h.files.At(o) == v;
    }
    RestOk(g, h, pid, q, s, i);
  }

  lemma WorkerSvc(g: Sys, pid: Pid, s: Service, v: Svc, q: Proc, past: History)
    requires Inv(g) && pid in g.procs && g.procs[pid].kind == Command(s) && g.procs[pid].procd
    requires q.kind == Command(s) && q.procd && g.past.Before(past)
    requires v.boot.Some? && v.boot.value.Wait? ==> v.boot == g.files.At(s).boot
    requires v.registered ==> v.Settled() || s in past.misled || Clears(q.todo, s)
    requires v.nft ==> v.registered || s in past.failed + past.misled || (q.todo != [] && q.todo[0] == Clean(s))
    ensures SvcOk(Wrote(g, pid, s, v, q, past), s)
  {
    var h := Wrote(g, pid, s, v, q, past);
    OnlyWorker(g, pid, s);
    assert SvcOk(g, s);
    assert h.files.At(s) == v;
    if q.todo != [] { assert Working(h, s, pid) && h.procs[pid] == q; }
  }

  // --------------------------------------------------------- the worker's steps

  lemma SubmitIsUp(todo: seq<Op>, s: Service)
    requires SubmitNext(todo, s)
    ensures !Halted(todo) && !Clears(todo, s)
  {
  }

  lemma ClearsIsUp(todo: seq<Op>, s: Service)
    requires Clears(todo, s)
    ensures !Halted(todo) && !SubmitNext(todo, s)
  {
  }

  /** Kill, removal of the table, validation and submission. */
  lemma LaunchStepsKeepInv(g: Sys, pid: Pid, e: Env, tok: Token)
    requires Inv(g) && CanRun(g, pid)
    requires var op := g.procs[pid].todo[0]; op.Kill? || op.Clean? || op.Validate? || op.Submit?
    ensures Inv(Step(g, pid, e, tok))
  {
    hide SvcOk, LocksOk, ProcOk, Continue;
    LocalStep(g, pid, e, tok);
    hide Step, CanRun, Remembered;
    var p := g.procs[pid];
    assert ProcOk(g, p);
    TypedTail(g, p);
    ProcParts(g, p);
    var op := p.todo[0];
    var s := op.s;
    WorkerFacts(g, pid, s);
    assert OpOk(g, p, op);
    assert SubmitNext(p.todo, s) <==> op.Submit?;
    assert Halted(p.todo) <==> op.Clean? || op.Validate?;
    var (v, q) := Local(op, g.files.At(s), p.(todo := p.todo[1..]), e, tok);
    assert q.todo == [] + p.todo[1..];
    LaunchHead(g, pid, s, v, q, e, tok);
    WorkerStep(g, pid, s, v, q, [], g.past);
  }

  lemma LaunchHead(g: Sys, pid: Pid, s: Service, v: Svc, q: Proc, e: Env, tok: Token)
    requires pid in g.procs && ProcOk(g, g.procs[pid])
    requires var p := g.procs[pid];
      && (p.todo[0].Kill? || p.todo[0].Clean? || p.todo[0].Validate? || p.todo[0].Submit?)
      && p.todo[0].s == s && p.kind == Command(s) && p.procd
      && (v, q) == Local(p.todo[0], g.files.At(s), p.(todo := p.todo[1..]), e, tok)
    ensures q.todo != [] ==> HeadOk(Wrote(g, pid, s, v, q, g.past), q)
  {
    var p := g.procs[pid];
    TypedTail(g, p);
    assert OpOk(g, p, p.todo[0]);
    var h := Wrote(g, pid, s, v, q, g.past);
    assert h.files.At(s) == v;
    if SubmitNext(q.todo, s) { SubmitIsUp(q.todo, s); }
    assert p.inst ==> p.todo[0].Submit?;
  }

  lemma StopLineKeepsInv(g: Sys, pid: Pid, e: Env, tok: Token)
    requires Inv(g) && CanRun(g, pid) && g.procs[pid].todo[0].StopLine?
    ensures Inv(Step(g, pid, e, tok))
  {
    hide SvcOk, LocksOk, ProcOk;
    var p := g.procs[pid];
    assert ProcOk(g, p);
    TypedTail(g, p);
    ProcParts(g, p);
    var s := p.todo[0].s;
    WorkerFacts(g, pid, s);
    var (v, q) := Local(p.todo[0], g.files.At(s), p.(todo := p.todo[1..]), e, tok);
    assert q.todo == [] + p.todo[1..];
    ClearsIsUp(q.todo, s);
    assert !p.inst;
    WorkerStep(g, pid, s, v, q, [], g.past);
  }

  lemma OnlyRelease(s: Service)
    ensures !Halted([Release(s)]) && !SubmitNext([Release(s)], s) && !Clears([Release(s)], s)
  {
    assert [Release(s)][1..] == [];
  }

  /** A gate that does not pass leaves only its release. */
  lemma GateClosedKeepsInv(g: Sys, pid: Pid, e: Env, tok: Token)
    requires Inv(g) && CanRun(g, pid)
    requires var p := g.procs[pid];
      && (p.todo[0].LinkGate? || p.todo[0].ExpiryGate?)
      && Local(p.todo[0], g.files.At(p.todo[0].s), p.(todo := p.todo[1..]), e, tok)
         == (g.files.At(p.todo[0].s), p.(todo := p.todo[1..]))
    ensures Inv(Step(g, pid, e, tok))
  {
    hide SvcOk, LocksOk, ProcOk;
    var p := g.procs[pid];
    assert ProcOk(g, p);
    TypedTail(g, p);
    ProcParts(g, p);
    var s := p.todo[0].s;
    WorkerFacts(g, pid, s);
    OnlyRelease(s);
    assert !p.inst;
    var q := p.(todo := p.todo[1..]);
    assert q.todo == [] + p.todo[1..];
    WorkerStep(g, pid, s, g.files.At(s), q, [], g.past);
  }

  /** A link gate that passes changes the link line and nothing else. */
  lemma LinkGateLocal(op: Op, u: Svc, p: Proc, e: Env, tok: Token)
    requires op.LinkGate?
    ensures var (v, q) := Local(op, u, p, e, tok);
      || (v, q) == (u, p)
      || (v == u.(link := v.link)
          && q == p.(todo := [Kill(op.s), Clean(op.s)] + StartBody(op.s, if op.up then Automatic else IfdownDefinition) + p.todo))
  {
  }

  lemma LinkGateKeepsInv(g: Sys, pid: Pid, e: Env, tok: Token)
    requires Inv(g) && CanRun(g, pid) && g.procs[pid].todo[0].LinkGate?
    ensures Inv(Step(g, pid, e, tok))
  {
    hide SvcOk, LocksOk, ProcOk, Continue;
    LocalStep(g, pid, e, tok);
    hide Step, CanRun, Remembered;
    var p := g.procs[pid];
    var s := p.todo[0].s;
    var (v, q) := Local(p.todo[0], g.files.At(s), p.(todo := p.todo[1..]), e, tok);
    LinkGateLocal(p.todo[0], g.files.At(s), p.(todo := p.todo[1..]), e, tok);
    hide Local;
    if q.todo == p.todo[1..] {
      GateClosedKeepsInv(g, pid, e, tok);
    } else {
      var ctx := if p.todo[0].up then Automatic else IfdownDefinition;
      var body := [Kill(s), Clean(s)] + StartBody(s, ctx);
      TypedUnderLock(s, ctx);
      assert forall i | 0 <= i < |body| :: Harmless(body[i]);
      GateOpenKeepsInv(g, pid, s, v, q, body);
    }
  }

  /** A gate that passes keeps the boot line and the instance, and runs `body` under its lock. */
  lemma GateOpenKeepsInv(g: Sys, pid: Pid, s: Service, v: Svc, q: Proc, body: seq<Op>)
    requires Inv(g) && CanRun(g, pid)
    requires var p := g.procs[pid];
      && (p.todo[0].LinkGate? || p.todo[0].ExpiryGate?) && p.todo[0].s == s
      && q == p.(todo := body + p.todo[1..])
      && v == g.files.At(s).(link := v.link)
    requires Typed(body + [Release(s)], Inside(Command(s), s, 1))
    requires body != [] && !Halted(q.todo) && !body[0].Submit? && !body[0].Release?
    requires forall i | 0 <= i < |body| :: OpOk(Wrote(g, pid, s, v, q, g.past), q, body[i])
    ensures Inv(Wrote(g, pid, s, v, q, g.past))
  {
    hide SvcOk, LocksOk, ProcOk;
    var p := g.procs[pid];
    assert ProcOk(g, p);
    TypedTail(g, p);
    ProcParts(g, p);
    WorkerFacts(g, pid, s);
    assert !p.inst;
    assert HeldBy(p) == Inside(Command(s), s, 1);
    assert q.todo[0] == body[0];
    WorkerStep(g, pid, s, v, q, body, g.past);
  }

  /** A gate that passes finds the exact wait line, past its deadline. */
  lemma ExpiryGateKeepsInv(g: Sys, pid: Pid, e: Env, tok: Token)
    requires Inv(g) && CanRun(g, pid) && g.procs[pid].todo[0].ExpiryGate?
    ensures Inv(Step(g, pid, e, tok))
  {
    hide SvcOk, LocksOk, ProcOk, Continue;
    LocalStep(g, pid, e, tok);
    hide Step, CanRun, Remembered;
    var p := g.procs[pid];
    var op := p.todo[0];
    var s := op.s;
    var v := g.files.At(s);
    if !e.bootReadOk || !v.Waiting(op.token, op.deadline) {
      GateClosedKeepsInv(g, pid, e, tok);
    } else {
      var body := StartBody(s, BootExpired(op.token, op.deadline));
      var q := p.(todo := body + p.todo[1..]);
      TypedUnderLock(s, BootExpired(op.token, op.deadline));
      ExpiryBodyOk(g, p, q);
      GateOpenKeepsInv(g, pid, s, v, q, body);
    }
  }

  /** What an open expiry gate starts is a decision about the wait it has just seen. */
  lemma ExpiryBodyOk(g: Sys, p: Proc, q: Proc)
    requires ProcOk(g, p) && p.todo[0].ExpiryGate?
    requires var op := p.todo[0];
      && g.files.At(op.s).Waiting(op.token, op.deadline)
      && q == p.(todo := StartBody(op.s, BootExpired(op.token, op.deadline)) + p.todo[1..])
    ensures var s := p.todo[0].s;
      && !Halted(q.todo) && p.locked == Some(s)
      && forall h: Sys, i |
           h.now == g.now && h.past == g.past && h.files.At(s) == g.files.At(s) && 0 <= i < |StartBody(s, BootExpired(p.todo[0].token, p.todo[0].deadline))| ::
           OpOk(h, q, StartBody(s, BootExpired(p.todo[0].token, p.todo[0].deadline))[i])
  {
    TypedTail(g, p);
    assert OpOk(g, p, p.todo[0]);
    assert q.todo[0] == Acquire(p.todo[0].s) && q.todo[1..][0].DecideStart?;
  }

  /** What the decision leaves: an instance that survives it is accounted for. */
  lemma DecisionFacts(ctx: Context, v: Svc, e: Env, misled: bool)
    requires v.registered ==> (v.Settled() || misled) && !ctx.IfdownDefinition?
    requires ctx.BootExpired? ==> v.Waiting(ctx.token, ctx.deadline)
    ensures var (w, o) := Decide(ctx, v, e);
            && w.registered == v.registered && w.nft == v.nft
            && (o.Launch? ==> w.Settled())
            && (o.Quiet? ==> !v.registered || Spoiled(ctx, v, e) || misled)
            && (w.registered ==> w.Settled() || o.Disabled? || misled)
            && (o.Failed? ==> w == v)
            && (w.boot.Some? && w.boot.value.Wait? ==> w.boot == v.boot)
  {
  }

  lemma DecideHead(g: Sys, h: Sys, p: Proc, q: Proc, s: Service, o: Outcome)
    requires p.todo != [] && SubmitNext(p.todo[1..], s) && q == p.(todo := DecisionBody(s, o) + p.todo[1..])
    requires p.kind == Command(s) && !p.inst
    requires o.Quiet? ==> !h.files.At(s).registered || s in h.past.failed + h.past.misled
    requires o.Failed? ==> s in h.past.failed
    ensures HeadOk(h, q)
    ensures o.Launch? || o.Disabled? ==> Clears(q.todo, s)
  {
    SubmitIsUp(p.todo[1..], s);
    if o.Quiet? || o.Failed? { assert q.todo == p.todo[1..]; }
  }

  lemma TypedDecision(s: Service, o: Outcome, rest: seq<Op>, c: Held)
    requires c.k == Command(s) && c.procd && Typed(rest, c) && SubmitNext(rest, s)
    ensures Typed(DecisionBody(s, o) + rest, c)
  {
    hide Typed, Plain, Halted, AfterRelease, SubmitNext;
    match o
    case Launch =>
      TypedCons(Validate(s), rest, c);
      TypedKill(s, [Validate(s)] + rest, c);
      assert DecisionBody(s, o) + rest == [Kill(s)] + ([Clean(s)] + ([Validate(s)] + rest));
    case Disabled =>
      TypedKill(s, rest, c);
      assert DecisionBody(s, o) + rest == [Kill(s)] + ([Clean(s)] + rest);
    case _ =>
      assert DecisionBody(s, o) + rest == rest;
  }

  lemma DecideKeepsInv(g: Sys, pid: Pid, e: Env, tok: Token)
    requires Inv(g) && CanRun(g, pid) && g.procs[pid].todo[0].DecideStart?
    ensures Inv(Step(g, pid, e, tok))
  {
    hide SvcOk, LocksOk, HeadOk, ProcOk, Continue;
    LocalStep(g, pid, e, tok);
    hide Step, Decide, CanRun, Remembered;
    var p := g.procs[pid];
    assert ProcOk(g, p);
    TypedTail(g, p);
    ProcParts(g, p);
    var op := p.todo[0];
    var s := op.s;
    WorkerFacts(g, pid, s);
    BeforeDecision(g, p);
    assert OpOk(g, p, op);
    DecisionFacts(op.ctx, g.files.At(s), e, s in g.past.misled);
    var (w, o) := Decide(op.ctx, g.files.At(s), e);
    var past := Remembered(g, p, e, tok);
    var q := p.(todo := DecisionBody(s, o) + p.todo[1..]);
    TypedDecision(s, o, p.todo[1..], HeldBy(p));
    assert HeldBy(q) == HeldBy(p);
    var h := Wrote(g, pid, s, w, q, past);
    assert h.files.At(s) == w;
    DecideHead(g, h, p, q, s, o);
    WorkerStep(g, pid, s, w, q, DecisionBody(s, o), past);
  }

  lemma BeforeDecision(g: Sys, p: Proc)
    requires ProcOk(g, p) && p.todo[0].DecideStart?
    ensures !p.inst && !Clears(p.todo, p.todo[0].s)
    ensures p.todo[0].ctx.IfdownDefinition? ==> !g.files.At(p.todo[0].s).registered
  {
    TypedTail(g, p);
    assert !SubmitNext(p.todo, p.todo[0].s);
  }

  // -------------------------------------------- scheduler and runner steps

  /** A waiting line may be replaced by someone who holds only the lifecycle lock:
      whoever owns an instance then is about to clear it. */
  lemma UnsettledSvc(g: Sys, pid: Pid, s: Service, v: Svc, q: Proc, past: History)
    requires Inv(g) && pid in g.procs && g.procs[pid].kind.Scheduler? && q.kind.Scheduler? && q.procd == g.procs[pid].procd
    requires v == g.files.At(s).(boot := v.boot)
    requires v == g.files.At(s) || !g.files.At(s).Settled() || s in past.misled
    requires g.past.Before(past) && (v.boot.Some? && v.boot.value.Wait? ==> v.boot.value.token in past.issued)
    ensures SvcOk(Wrote(g, pid, s, v, q, past), s)
  {
    hide ProcOk, LocksOk;
    var h := Wrote(g, pid, s, v, q, past);
    var u := g.files.At(s);
    assert SvcOk(g, s);
    assert h.files.At(s) == v;
    NotWorking(g, pid, s);
    if u.registered && !u.Settled() && s !in g.past.misled {
      var c :| Working(g, s, c) && Clears(g.procs[c].todo, s);
      assert Working(h, s, c) && h.procs[c] == g.procs[c];
    }
    if u.nft && !u.registered && s !in g.past.failed + g.past.misled {
      var c :| Working(g, s, c) && g.procs[c].todo != [] && g.procs[c].todo[0] == Clean(s);
      assert Working(h, s, c) && h.procs[c] == g.procs[c];
    }
  }

  /** What cancelling or arming does to the line. */
  lemma WaitLineFacts(op: Op, u: Svc, p: Proc, e: Env, tok: Token)
    requires op.CancelWait? || op.ArmWait?
    ensures var (v, q) := Local(op, u, p, e, tok);
            && v == u.(boot := v.boot) && (v == u || !u.Settled() || forall now :: Misleads(op, u, p.plan, e, now))
            && (v.boot == u.boot || !v.boot.value.Wait? || (op.ArmWait? && v.boot.value.token == tok))
            && (v.boot.None? ==> u.boot.None?)
            && q == p.(plan := q.plan)
            && (q.plan == p.plan || q.plan.Idle?
                || (op.ArmWait? && p.plan.Read? && q.plan.Armed? && q.plan.at == p.plan.at
                    && (q.plan.token == tok || (u.boot.Some? && u.boot.value.Wait? && q.plan.token == u.boot.value.token))))
  {
  }

  /** Cancelling or arming a wait. */
  lemma WaitLineKeepsInv(g: Sys, pid: Pid, e: Env, tok: Token)
    requires Inv(g) && CanRun(g, pid) && tok !in g.past.issued
    requires g.procs[pid].todo[0].CancelWait? || g.procs[pid].todo[0].ArmWait?
    ensures Inv(Step(g, pid, e, tok))
  {
    hide SvcOk, LocksOk, HeadOk, ProcOk;
    var p := g.procs[pid];
    assert ProcOk(g, p);
    TypedTail(g, p);
    ProcParts(g, p);
    var op := p.todo[0];
    var s := op.s;
    var u := g.files.At(s);
    var (v, q) := Local(op, u, p.(todo := p.todo[1..]), e, tok);
    WaitLineFacts(op, u, p.(todo := p.todo[1..]), e, tok);
    hide Local;
    WaitTokenIssued(g, s);
    var past := Remembered(g, p, e, tok);
    UnsettledSvc(g, pid, s, v, q, past);
    if q.todo != [] { WaitLineProc(g, pid, s, v, q, past); }
    WroteKeepsInv(g, pid, s, v, q, past);
  }

  lemma WaitLineProc(g: Sys, pid: Pid, s: Service, v: Svc, q: Proc, past: History)
    requires Inv(g) && pid in g.procs && g.procs[pid].kind.Scheduler? && g.past.Before(past)
    requires var p := g.procs[pid];
      && p.todo != [] && (p.todo[0].CancelWait? || p.todo[0].ArmWait?)
      && q == p.(todo := p.todo[1..], plan := q.plan) && q.todo != []
    requires Allowed(g, pid, s, v, past.misled)
    requires PlanOk(Wrote(g, pid, s, v, q, past), q)
    ensures ProcOk(Wrote(g, pid, s, v, q, past), q)
  {
    hide SvcOk, LocksOk, ProcOk;
    var p := g.procs[pid];
    var h := Wrote(g, pid, s, v, q, past);
    assert ProcOk(g, p);
    TypedTail(g, p);
    ProcParts(g, p);
    forall i | 0 <= i < |q.todo| ensures OpOk(h, q, q.todo[i]) { OwnRest(g, pid, s, v, q, past, i + 1); }
    NoWorkerHead(h, q);
    MakeProcOk(h, q);
  }

  lemma NoWorkerHead(h: Sys, q: Proc)
    requires q.kind.Scheduler?
    ensures HeadOk(h, q)
  {
  }

  lemma WaitTokenIssued(g: Sys, s: Service)
    requires Inv(g)
    ensures var v := g.files.At(s); v.boot.Some? && v.boot.value.Wait? ==> v.boot.value.token in g.past.issued
  {
    assert SvcOk(g, s);
  }

  lemma SameFiles(g: Sys, pid: Pid, s: Service, q: Proc)
    ensures Wrote(g, pid, s, g.files.At(s), q, g.past) == Continue(g, pid, q)
  {
    assert g.files.With(s, g.files.At(s)) == g.files;
  }

  lemma ReadConfigKeepsInv(g: Sys, pid: Pid, e: Env, tok: Token)
    requires Inv(g) && CanRun(g, pid) && g.procs[pid].todo[0].ReadConfig?
    requires e.uptime.Some? ==> e.uptime.value == g.now
    ensures Inv(Step(g, pid, e, tok))
  {
    hide SvcOk, LocksOk, ProcOk;
    var p := g.procs[pid];
    assert ProcOk(g, p);
    TypedTail(g, p);
    ProcParts(g, p);
    var s := p.todo[0].s;
    var (v, q) := Local(p.todo[0], g.files.At(s), p.(todo := p.todo[1..]), e, tok);
    var k := if e.uptime.None? then 5 else 1;
    assert q.todo == p.todo[k..];
    var h := Continue(g, pid, q);
    if q.todo != [] {
      forall i | 0 <= i < |q.todo| ensures OpOk(h, q, q.todo[i]) { TailOk(g, h, p, q, i + k); }
      MakeProcOk(h, q);
    }
    SchedulerStep(g, pid, q);
    SameFiles(g, pid, s, q);
  }

  lemma RunnerKeepsInv(g: Sys, pid: Pid, e: Env, tok: Token)
    requires Inv(g) && CanRun(g, pid) && (e.uptime.Some? ==> e.uptime.value == g.now)
    requires var op := g.procs[pid].todo[0]; op.Poll? || op.CheckClock? || op.Recheck?
    ensures Inv(Step(g, pid, e, tok))
  {
    hide SvcOk, LocksOk, ProcOk;
    var p := g.procs[pid];
    assert ProcOk(g, p);
    TypedTail(g, p);
    ProcParts(g, p);
    var op := p.todo[0];
    var (v, q) := Local(op, g.files.At(op.s), p.(todo := p.todo[1..]), e, tok);
    assert OpOk(g, p, op);
    assert g.files.With(op.s, v) == g.files;
    var m := g.(past := Remembered(g, p, e, tok));
    if q.todo != [] { RunnerNext(g, Continue(m, pid, q), p, q, e, tok); }
    RunnerSvc(g, m, pid, q);
    LocksSame(g, m, pid, q);
    ContinueKeepsInv(g, m, pid, q);
  }

  /** Where a runner goes next, it goes with good reason. */
  lemma RunnerNext(g: Sys, h: Sys, p: Proc, q: Proc, e: Env, tok: Token)
    requires ProcOk(g, p) && (p.todo[0].Poll? || p.todo[0].CheckClock? || p.todo[0].Recheck?)
    requires q == Local(p.todo[0], g.files.At(p.todo[0].s), p.(todo := p.todo[1..]), e, tok).1 && q.todo != []
    requires e.uptime.Some? ==> e.uptime.value == g.now
    requires h.files == g.files && h.now == g.now && h.past == Remembered(g, p, e, tok)
    ensures ProcOk(h, q)
  {
    TypedTail(g, p);
    var op := p.todo[0];
    assert OpOk(g, p, op);
    if op.Recheck? {
      TypedGated(op.s, ExpiryGate(op.s, op.token, op.deadline));
    } else {
      RunnerTyped(q.todo[0]);
      assert q.todo == [q.todo[0]];
    }
  }

  lemma RunnerSvc(g: Sys, m: Sys, pid: Pid, q: Proc)
    requires Inv(g) && pid in g.procs && !g.procs[pid].procd && !q.procd
    requires m == g.(past := m.past) && g.past.Before(m.past)
    ensures forall s :: SvcOk(Continue(m, pid, q), s)
  {
    ContinueFrame(g, m, pid, q);
    forall s ensures SvcOk(Continue(m, pid, q), s) {
      NotWorking(g, pid, s);
      SvcUntouched(g, Continue(m, pid, q), pid, s);
    }
  }

  // --------------------------------------------------------------- all events

  lemma StepKeepsInv(g: Sys, pid: Pid, e: Env, tok: Token)
    requires Inv(g) && Enabled(g, Run(pid, e, tok))
    ensures Inv(Step(g, pid, e, tok))
  {
    hide Inv;
    var p := g.procs[pid];
    match p.todo[0]
    case TakeProcd(_) => TakeProcdKeepsInv(g, pid, e, tok);
    case Acquire(s) =>
      if p.locked == Some(s) || e.lockOk { AcquireKeepsInv(g, pid, e, tok); } else { AcquireFailsKeepsInv(g, pid, e, tok); }
    case Release(_) => ReleaseKeepsInv(g, pid, e, tok);
    case DecideStart(_, _) => DecideKeepsInv(g, pid, e, tok);
    case Kill(_) => LaunchStepsKeepInv(g, pid, e, tok);
    case Clean(_) => LaunchStepsKeepInv(g, pid, e, tok);
    case Validate(_) => LaunchStepsKeepInv(g, pid, e, tok);
    case Submit(_) => LaunchStepsKeepInv(g, pid, e, tok);
    case LinkGate(_, _) => LinkGateKeepsInv(g, pid, e, tok);
    case ExpiryGate(_, _, _) => ExpiryGateKeepsInv(g, pid, e, tok);
    case StopLine(_) => StopLineKeepsInv(g, pid, e, tok);
    case CancelWait(_) => WaitLineKeepsInv(g, pid, e, tok);
    case ArmWait(_) => WaitLineKeepsInv(g, pid, e, tok);
    case ReadConfig(_) => ReadConfigKeepsInv(g, pid, e, tok);
    case Supervise(_) =>
      if !p.plan.Armed? { SuperviseIdleKeepsInv(g, pid, e, tok); }
      else if p.plan.at >= p.plan.deadline { SuperviseDueKeepsInv(g, pid, e, tok); }
      else { SuperviseAheadKeepsInv(g, pid, e, tok); }
    case Join(_) => JoinKeepsInv(g, pid, e, tok);
    case _ => RunnerKeepsInv(g, pid, e, tok);
  }

  /** The invariant is inductive. */
  lemma NextKeepsInv(g: Sys, ev: Event)
    requires Inv(g) && Enabled(g, ev)
    ensures Inv(Next(g, ev))
  {
    hide Inv;
    match ev
    case Tick => TickKeepsInv(g);
    case Spawn(r) => SpawnKeepsInv(g, r);
    case DaemonUp(s) => DaemonKeepsInv(g, s);
    case KillRunner(pid) => KillRunnerKeepsInv(g, pid);
    case Run(pid, e, tok) => StepKeepsInv(g, pid, e, tok);
  }

  /** Every state of every run satisfies the invariant. */
  lemma {:induction false} Reachable(states: seq<Sys>, events: seq<Event>, i: nat)
    requires IsRun(states, events) && i < |states|
    ensures Inv(states[i])
  {
    if i > 0 {
      Reachable(states, events, i - 1);
      NextKeepsInv(states[i - 1], events[i - 1]);
    }
  }
}
