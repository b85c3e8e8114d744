/** All init-script commands of both services, the boot scheduler and its runners
    as concurrent processes over the shared files, the two lifecycle flocks, the
    procd locks and the clock.

    A process is the list of operations it still has to perform; a gate that
    passes puts its body in front of that list. Anything a process reads from
    outside (UCI, the uptime file, the luck of a file operation) comes with the
    event that runs it, so UCI may change between any two reads. A line that cannot
    be read is taken for none; `Misleads` says when that makes a process act against
    the line, and the state remembers for which services it has happened. */
module Protocol {
  import opened Common
  import opened Lifecycle

  type Pid = nat

  datatype ProcdLock = SchedulerLock | ServiceLock(s: Service)

  datatype Op =
    | TakeProcd(lock: ProcdLock)
    | Acquire(s: Service)
    | Release(s: Service)
    | DecideStart(s: Service, ctx: Context)
    | Kill(s: Service)
    | Clean(s: Service)
    | Validate(s: Service)
    | Submit(s: Service)
    | LinkGate(s: Service, up: bool)
    | ExpiryGate(s: Service, token: Token, deadline: nat)
    | StopLine(s: Service)
    | CancelWait(s: Service)
    | ReadConfig(s: Service)
    | ArmWait(s: Service)
    | Supervise(s: Service)
    | Join(child: Pid)
    | Poll(s: Service, token: Token, deadline: nat)
    | CheckClock(s: Service, token: Token, deadline: nat)
    | Recheck(s: Service, token: Token, deadline: nat)

  datatype Kind = Command(s: Service) | Scheduler | Runner

  /** The scheduler's local variables for the service it is working on. */
  datatype Plan = Idle | Read(enabled: bool, delay: Delay, at: nat) | Armed(token: Token, deadline: nat, at: nat)

  datatype Proc = Proc(kind: Kind, todo: seq<Op>, procd: bool, locked: Option<Service>, depth: nat,
                       inst: bool, plan: Plan)

  // ---------------------------------------------------------------- programs

  /** What users, UCI triggers, hotplug and procd may invoke. */
  datatype Request =
    | StartAs(s: Service, automatic: bool)
    | StopService(s: Service)
    | RestartService(s: Service)
    | Reload(s: Service)
    | LinkEvent(s: Service, up: bool)
    | SchedulerStart
    | SchedulerStop

  function StartBody(s: Service, ctx: Context): seq<Op> {
    [Acquire(s), DecideStart(s, ctx), Release(s), Submit(s)]
  }

  function StopBody(s: Service): seq<Op> {
    [Acquire(s), StopLine(s), Release(s), Kill(s), Clean(s)]
  }

  function ExpiryProgram(s: Service, token: Token, deadline: nat): seq<Op> {
    [TakeProcd(ServiceLock(s)), Acquire(s), ExpiryGate(s, token, deadline), Release(s)]
  }

  function ScheduleBody(s: Service): seq<Op> {
    [ReadConfig(s), Acquire(s), ArmWait(s), Release(s), Supervise(s)]
  }

  function CancelBody(): seq<Op> {
    [Acquire(FakeSip), CancelWait(FakeSip), Release(FakeSip),
     Acquire(FakeHttp), CancelWait(FakeHttp), Release(FakeHttp)]
  }

  function Program(r: Request): seq<Op> {
    match r
    case StartAs(s, automatic) =>
      [TakeProcd(ServiceLock(s))] + StartBody(s, if automatic then Automatic else ManualStart)
    case StopService(s) => [TakeProcd(ServiceLock(s))] + StopBody(s)
    case RestartService(s) => [TakeProcd(ServiceLock(s))] + StopBody(s) + StartBody(s, ManualStart)
    case Reload(s) =>
      [TakeProcd(ServiceLock(s)), Acquire(s), Kill(s), Clean(s)] + StartBody(s, ManualStart) + [Release(s)]
    case LinkEvent(s, up) =>
      [TakeProcd(ServiceLock(s)), Acquire(s), LinkGate(s, up), Release(s)]
    case SchedulerStart => [TakeProcd(SchedulerLock)] + ScheduleBody(FakeSip) + ScheduleBody(FakeHttp)
    case SchedulerStop => [TakeProcd(SchedulerLock)] + CancelBody() + CancelBody()
  }

  function KindOf(r: Request): Kind {
    if r.SchedulerStart? || r.SchedulerStop? then Scheduler else Command(r.s)
  }

  function NewProc(kind: Kind, todo: seq<Op>): Proc {
    Proc(kind, todo, false, None, 0, false, Idle)
  }

  /** What remains once the caller of a failed `tf_lifecycle_lock_acquire` has returned
      from the function that wanted the lock: everything after the matching release. */
  function AfterRelease(todo: seq<Op>, depth: nat): (r: seq<Op>)
    ensures |r| <= |todo|
  {
    if todo == [] || depth == 0 then todo
    else AfterRelease(todo[1..], if todo[0].Acquire? then depth + 1 else if todo[0].Release? then depth - 1 else depth)
  }

  // -------------------------------------------------------------- operations

  /** Operations on locks and processes, which touch no file. */
  predicate LockOp(op: Op) {
    op.TakeProcd? || op.Acquire? || op.Release? || op.Supervise? || op.Join?
  }

  function DecisionBody(s: Service, o: Outcome): seq<Op> {
    match o
    case Launch => [Kill(s), Clean(s), Validate(s)]
    case Disabled => [Kill(s), Clean(s)]
    case _ => []
  }

  /** One operation of process `p` on the files of the operation's own service;
      `p.todo` is already what follows the operation. */
  function Local(op: Op, v: Svc, p: Proc, e: Env, newToken: Token): (Svc, Proc) {
    match op
    case DecideStart(s, ctx) =>
      var (w, o) := Decide(ctx, v, e);
      (w, p.(todo := DecisionBody(s, o) + p.todo))
    case Kill(s) => (v.(registered := false), p)
    case Clean(s) => (v.(nft := false), p)
    case Validate(s) => (v, p.(inst := e.launchOk))
    case Submit(s) => (v.(registered := p.inst), p.(inst := false))
    case LinkGate(s, up) =>
      if !e.matches || (up && !e.present) then (v, p)
      else
        (match LinkRecorded(v, if up then Up else Down, e.linkReadOk, e.linkWriteOk)
         case None => (v, p)
         case Some(w) =>
           (w, p.(todo := [Kill(s), Clean(s)] + StartBody(s, if up then Automatic else IfdownDefinition) + p.todo)))
    case ExpiryGate(s, token, deadline) =>
      if e.bootReadOk && v.Waiting(token, deadline)
      then (v, p.(todo := StartBody(s, BootExpired(token, deadline)) + p.todo)) else (v, p)
    case StopLine(s) => (if e.bootWriteOk then v.(boot := Some(Cancel("explicit-stop"))) else v, p)
    case CancelWait(s) => (WaitCancelled(v, e.bootReadOk && e.bootWriteOk), p)
    case ReadConfig(s) =>
      if e.uptime.None? then (v, p.(todo := if |p.todo| >= 4 then p.todo[4..] else []))
      else (v, p.(plan := Read(e.enabled, e.delay, e.uptime.value)))
    case ArmWait(s) =>
      if !p.plan.Read? then (v, p)
      else
        var (w, wait) := Arm(v, p.plan.enabled, p.plan.delay, newToken, e.bootReadOk, e.bootWriteOk);
        (w, p.(plan := if wait.None? then Idle else Armed(wait.value.0, wait.value.1, p.plan.at)))
    case Poll(s, token, deadline) =>
      (v, p.(todo := if e.bootReadOk && v.Waiting(token, deadline) then [CheckClock(s, token, deadline)]
                     else [Recheck(s, token, deadline)]))
    case CheckClock(s, token, deadline) =>
      (v, p.(todo := if e.uptime.None? then []
                     else if e.uptime.value < deadline then [Poll(s, token, deadline)]
                     else [Recheck(s, token, deadline)]))
    case Recheck(s, token, deadline) =>
      (v, if e.bootReadOk && v.Waiting(token, deadline) then NewProc(Command(s), ExpiryProgram(s, token, deadline)) else p)
    case _ => (v, p)
  }

  // ------------------------------------------------------------------ system

  /** What the proofs remember of a run; no process looks at it. */
  datatype History = History(
    issued: set<Token>,              // tokens ever armed
    failed: set<Service>,            // a lock failed, or a decision's boot-line read or write
    misled: set<Service>)            // an unreadable boot line made a process act against it
  {
    predicate Before(later: History) {
      issued <= later.issued && failed <= later.failed && misled <= later.misled
    }
  }

  datatype Sys = Sys(
    files: Files,
    now: nat,
    next: Pid,                       // pids are handed out in order
    procs: map<Pid, Proc>,
    flock: map<Service, Pid>,
    procd: map<ProcdLock, Pid>,
    past: History)

  datatype Event =
    | Tick
    | Spawn(request: Request)
    | DaemonUp(svc: Service)         // a registered daemon creates its nft table
    | KillRunner(pid: Pid)
    | Run(pid: Pid, e: Env, newToken: Token)

  const BOOT: Sys := Sys(Files(Svc(None, None, false, false), Svc(None, None, false, false)),
                         0, 0, map[], map[], map[], History({}, {}, {}))

  function LockOf(k: Kind): ProcdLock {
    if k.Command? then ServiceLock(k.s) else SchedulerLock
  }

  predicate CanRun(g: Sys, pid: Pid) {
    pid in g.procs && g.procs[pid].todo != [] &&
    match g.procs[pid].todo[0]
    case TakeProcd(lock) => lock !in g.procd
    case Acquire(s) => g.procs[pid].locked == Some(s) || s !in g.flock
    case Join(child) => child !in g.procs
    case _ => true
  }

  predicate Enabled(g: Sys, ev: Event) {
    match ev
    case Tick => true
    case Spawn(_) => true
    case DaemonUp(s) => g.files.At(s).registered
    case KillRunner(pid) => pid in g.procs && g.procs[pid].kind.Runner?
    case Run(pid, e, newToken) =>
      CanRun(g, pid) && (e.uptime.Some? ==> e.uptime.value == g.now) && newToken !in g.past.issued
  }

  /** Process `pid` continues as `q`, or exits and gives its procd lock back. */
  function Continue(g: Sys, pid: Pid, q: Proc): (h: Sys)
    ensures h.files == g.files && h.past == g.past && h.now == g.now
  {
    if q.todo != [] then g.(procs := g.procs[pid := q])
    else g.(procs := g.procs - {pid}, procd := if q.procd then g.procd - {LockOf(q.kind)} else g.procd)
  }

  function Born(g: Sys, p: Proc): Sys {
    g.(procs := g.procs[g.next := p], next := g.next + 1)
  }

  /** An automatic decision that takes a line it cannot read for none and marks it done: a cancelled
      or manual line, or a wait still ahead. */
  predicate MarksWrongly(v: Svc, e: Env, now: nat) {
    && e.enabled && e.bootWriteOk && v.boot.Some?
    && match v.boot.value
       case Wait(_, deadline) => !e.bootReadOk && e.uptime.Some? && e.delay <= now < deadline
       case Manual => !e.bootAgainOk && (e.bootReadOk || (e.uptime.Some? && now >= e.delay))
       case Done(_, _) => false
       case Cancel(_) => !e.bootReadOk && e.uptime.Some? && now >= e.delay
  }

  /** Failed reads that make a process act against the line: the runner leaves its loop while its
      wait is still ahead, the scheduler arms a wait over a settled or cancelled line, or an
      automatic start marks such a line done. */
  predicate Misleads(op: Op, v: Svc, plan: Plan, e: Env, now: nat) {
    match op
    case Poll(_, token, deadline) => !e.bootReadOk && v.Waiting(token, deadline) && now < deadline
    case ArmWait(_) =>
      !e.bootReadOk && plan.Read? && plan.enabled && e.bootWriteOk && v.boot.Some? && !v.boot.value.Wait?
    case DecideStart(_, Automatic) => MarksWrongly(v, e, now)
    case _ => false
  }

  /** A decision that could not read or write the boot line. */
  predicate Spoiled(ctx: Context, v: Svc, e: Env) {
    !e.bootReadOk || Decide(ctx, v, e).1.Failed?
  }

  /** The history after process `p` has run an operation on its service's files. */
  function Remembered(g: Sys, p: Proc, e: Env, newToken: Token): (h: History)
    requires p.todo != [] && !LockOp(p.todo[0])
    ensures g.past.Before(h)
  {
    var op := p.todo[0];
    var v := g.files.At(op.s);
    History(if op.ArmWait? then g.past.issued + {newToken} else g.past.issued,
            if op.DecideStart? && Spoiled(op.ctx, v, e) then g.past.failed + {op.s} else g.past.failed,
            if Misleads(op, v, p.plan, e, g.now) then g.past.misled + {op.s} else g.past.misled)
  }

  function Step(g: Sys, pid: Pid, e: Env, newToken: Token): Sys
    requires CanRun(g, pid)
  {
    var p := g.procs[pid];
    var op := p.todo[0];
    var q := p.(todo := p.todo[1..]);
    match op
    case TakeProcd(lock) =>
      Continue(g.(procd := g.procd[lock := pid]), pid, q.(procd := true))
    case Acquire(s) =>
      if p.locked == Some(s) then Continue(g, pid, q.(depth := p.depth + 1))
      else if e.lockOk then Continue(g.(flock := g.flock[s := pid]), pid, q.(locked := Some(s), depth := 1))
      else Continue(g.(past := g.past.(failed := g.past.failed + {s})), pid, q.(todo := AfterRelease(q.todo, 1), plan := Idle))
    case Release(s) =>
      if p.depth == 1 then Continue(g.(flock := g.flock - {s}), pid, q.(locked := None, depth := 0))
      else Continue(g, pid, q.(depth := if p.depth > 0 then p.depth - 1 else 0))
    case Supervise(s) =>
      if !p.plan.Armed? then Continue(g, pid, q)
      else if p.plan.at >= p.plan.deadline then
        Continue(Born(g, NewProc(Command(s), ExpiryProgram(s, p.plan.token, p.plan.deadline))), pid,
                 q.(todo := [Join(g.next)] + q.todo, plan := Idle))
      else
        Continue(Born(g, NewProc(Runner, [Poll(s, p.plan.token, p.plan.deadline)])), pid, q.(plan := Idle))
    case Join(child) => Continue(g, pid, q)
    case _ =>
      var s := op.s;
      var (v, r) := Local(op, g.files.At(s), q, e, newToken);
      Continue(g.(files := g.files.With(s, v), past := Remembered(g, p, e, newToken)), pid, r)
  }

  function Next(g: Sys, ev: Event): Sys
    requires Enabled(g, ev)
  {
    match ev
    case Tick => g.(now := g.now + 1)
    case Spawn(r) => Born(g, NewProc(KindOf(r), Program(r)))
    case DaemonUp(s) => g.(files := g.files.With(s, g.files.At(s).(nft := true)))
    case KillRunner(pid) => g.(procs := g.procs - {pid})
    case Run(pid, e, newToken) => Step(g, pid, e, newToken)
  }

  ghost predicate IsRun(states: seq<Sys>, events: seq<Event>) {
    && |states| == |events| + 1
    && states[0] == BOOT
    && forall i | 0 <= i < |events| :: Enabled(states[i], events[i]) && states[i + 1] == Next(states[i], events[i])
  }
}
