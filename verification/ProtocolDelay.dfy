/** Where delays come from: every wait that is ever stored carries a boot delay that the scheduler
    read from UCI for the same service, so no automatic instance appears before some configured
    delay has passed. */
module ProtocolDelay {
  import opened Common
  import opened Lifecycle
  import opened Protocol
  import opened ProtocolInvariant
  import opened ProtocolPreservation
  import opened ProtocolLocal
  import opened ProtocolTheorems
  import opened ProtocolInstances

  /** The scheduler, as process `pid`, reads the configuration of an enabled service `s`. */
  predicate ReadsDelay(g: Sys, ev: Event, pid: Pid, s: Service) {
    Moves(g, ev, pid) && Runs(g, ev, ReadConfig(s)) && ev.e.enabled
  }

  /** Every configuration read is followed by the lock and the arming of the same service. */
  predicate Scheduled(todo: seq<Op>) {
    forall i | 0 <= i < |todo| ::
      todo[i].ReadConfig? ==> i + 2 < |todo| && todo[i + 1] == Acquire(todo[i].s) && todo[i + 2] == ArmWait(todo[i].s)
  }

  /** A plan read from UCI is for the service that is armed next. */
  predicate PlanAhead(p: Proc) {
    p.plan.Read? ==>
      && p.todo != []
      && (p.todo[0].ArmWait? || (p.todo[0].Acquire? && |p.todo| > 1 && p.todo[1] == ArmWait(p.todo[0].s)))
  }

  predicate Shape(p: Proc) {
    Scheduled(p.todo) && PlanAhead(p)
  }

  lemma ScheduledSuffix(todo: seq<Op>, n: nat)
    requires Scheduled(todo) && n <= |todo|
    ensures Scheduled(todo[n..])
  {
    var t := todo[n..];
    forall i | 0 <= i < |t| && t[i].ReadConfig?
      ensures i + 2 < |t| && t[i + 1] == Acquire(t[i].s) && t[i + 2] == ArmWait(t[i].s)
    {
      assert t[i] == todo[n + i];
    }
  }

  lemma ScheduledBehind(body: seq<Op>, todo: seq<Op>)
    requires Scheduled(todo) && forall op | op in body :: !op.ReadConfig?
    ensures Scheduled(body + todo)
  {
    var t := body + todo;
    assert forall i | 0 <= i < |body| :: t[i] == body[i] && !body[i].ReadConfig?;
    forall i | 0 <= i < |t| && t[i].ReadConfig?
      ensures i + 2 < |t| && t[i + 1] == Acquire(t[i].s) && t[i + 2] == ArmWait(t[i].s)
    {
      assert i >= |body|;
      assert t[i] == todo[i - |body|];
    }
  }

  lemma ProgramsAreScheduled(r: Request)
    ensures Scheduled(Program(r))
  {
    var none: seq<Op> := [];
    if r.SchedulerStart? {
      ScheduledBody(FakeHttp, none);
      ScheduledBody(FakeSip, ScheduleBody(FakeHttp) + none);
      var t := ScheduleBody(FakeSip) + (ScheduleBody(FakeHttp) + none);
      ScheduledBehind([TakeProcd(SchedulerLock)], t);
      assert Program(r) == [TakeProcd(SchedulerLock)] + t;
    } else {
      OnlyTheSchedulerReads(r);
      hide Program;
      ScheduledBehind(Program(r), none);
      assert Program(r) + none == Program(r);
    }
  }

  lemma ScheduledBody(s: Service, todo: seq<Op>)
    requires Scheduled(todo)
    ensures Scheduled(ScheduleBody(s) + todo)
  {
    var body := [Acquire(s), ArmWait(s), Release(s), Supervise(s)];
    ScheduledBehind(body, todo);
    var t := ScheduleBody(s) + todo;
    assert t == [ReadConfig(s)] + (body + todo);
    forall i | 0 < i < |t| ensures t[i] == (body + todo)[i - 1] {}
  }

  lemma OnlyTheSchedulerReads(r: Request)
    requires !r.SchedulerStart?
    ensures forall op | op in Program(r) :: !op.ReadConfig?
  {
  }

  lemma AdvancesShape(p: Proc, q: Proc)
    requires p.todo != [] && Shape(p) && Advances(p, q) && LockOp(p.todo[0])
    ensures Shape(q) && (q.plan.Read? ==> q.plan == p.plan && q.todo[0].s == p.todo[0].s)
  {
    ScheduledSuffix(p.todo, 1);
    SuffixOfRelease(p.todo[1..], 1);
    ScheduledSuffix(p.todo[1..], |p.todo| - 1 - |AfterRelease(p.todo[1..], 1)|);
    if q.todo != [] && q.todo[0].Join? && q.todo[1..] == p.todo[1..] {
      ScheduledBehind([q.todo[0]], p.todo[1..]);
      assert q.todo == [q.todo[0]] + p.todo[1..];
    }
  }

  lemma RunnersNeverRead(s: Service, token: Token, deadline: nat)
    ensures Scheduled([]) && Scheduled([Poll(s, token, deadline)]) && Scheduled([CheckClock(s, token, deadline)])
    ensures Scheduled([Recheck(s, token, deadline)]) && Scheduled(ExpiryProgram(s, token, deadline))
  {
  }

  predicate Prepends(op: Op) {
    op.DecideStart? || op.LinkGate? || op.ExpiryGate?
  }

  lemma GateShape(op: Op, v: Svc, p: Proc, e: Env, tok: Token)
    requires p.todo != [] && Shape(p) && op == p.todo[0] && !LockOp(op) && Prepends(op)
    ensures var q := Local(op, v, p.(todo := p.todo[1..]), e, tok).1;
            Shape(q) && (q.plan.Read? ==> op.ReadConfig? && q.todo[0].s == op.s
                                          && q.plan.enabled == e.enabled && q.plan.delay == e.delay)
  {
    hide Decide, LinkRecorded;
    var rest := p.todo[1..];
    ScheduledSuffix(p.todo, 1);
    if op.DecideStart? { ScheduledBehind(DecisionBody(op.s, Decide(op.ctx, v, e).1), rest); }
    if op.LinkGate? {
      ScheduledBehind([Kill(op.s), Clean(op.s)] + StartBody(op.s, if op.up then Automatic else IfdownDefinition), rest);
    }
    if op.ExpiryGate? { ScheduledBehind(StartBody(op.s, BootExpired(op.token, op.deadline)), rest); }
    hide Scheduled;
  }

  lemma LocalShape(op: Op, v: Svc, p: Proc, e: Env, tok: Token)
    requires p.todo != [] && Shape(p) && op == p.todo[0] && !LockOp(op)
    ensures var q := Local(op, v, p.(todo := p.todo[1..]), e, tok).1;
            Shape(q) && (q.plan.Read? ==> op.ReadConfig? && q.todo[0].s == op.s
                                          && q.plan.enabled == e.enabled && q.plan.delay == e.delay)
  {
    if Prepends(op) {
      GateShape(op, v, p, e, tok);
    } else {
      hide Arm;
      var rest := p.todo[1..];
      ScheduledSuffix(p.todo, 1);
      assert op.ReadConfig? ==> |rest| > 1 && rest[0] == Acquire(op.s) && rest[1] == ArmWait(op.s);
      if op.ReadConfig? && |rest| >= 4 { ScheduledSuffix(rest, 4); }
      if op.Poll? || op.CheckClock? || op.Recheck? { RunnersNeverRead(op.s, op.token, op.deadline); }
      RunnersNeverRead(op.s, "", 0);
      hide Scheduled;
    }
  }

  /** A process keeps its shape, and a plan of an enabled service is either just read or kept. */
  lemma ShapeMoves(g: Sys, ev: Event, pid: Pid)
    requires Enabled(g, ev) && Moves(g, ev, pid) && pid in Next(g, ev).procs && Shape(g.procs[pid])
    ensures var p, q := g.procs[pid], Next(g, ev).procs[pid];
      && Shape(q)
      && (q.plan.Read? && q.plan.enabled ==>
            || (q.plan == p.plan && q.todo[0].s == p.todo[0].s)
            || (ReadsDelay(g, ev, pid, q.todo[0].s) && q.plan.delay == ev.e.delay))
  {
    hide Continue, Local, Step, Shape, Advances;
    var p := g.procs[pid];
    var m, q := StepContinues(g, pid, ev.e, ev.newToken);
    ContinueOwn(m, pid, q);
    if LockOp(p.todo[0]) {
      AdvancesShape(p, q);
    } else {
      LocalShape(p.todo[0], g.files.At(p.todo[0].s), p, ev.e, ev.newToken);
    }
  }

  lemma ShapeBorn(g: Sys, ev: Event, pid: Pid)
    requires Inv(g) && Enabled(g, ev) && pid !in g.procs && pid in Next(g, ev).procs
    ensures var q := Next(g, ev).procs[pid]; Shape(q) && q.plan.Idle?
  {
    hide SvcOk, ProcOk, Step;
    if ev.Run? {
      StepOthers(g, ev.pid, ev.e, ev.newToken, pid);
    } else if ev.Spawn? {
      ProgramsAreScheduled(ev.request);
    }
  }

  /** The delay of this plan was read for this service by the same process. */
  ghost predicate Sourced(states: seq<Sys>, events: seq<Event>, k: nat, pid: Pid, s: Service, delay: Delay)
    requires |states| > |events| >= k
  {
    exists j :: 0 <= j < k && ReadsDelay(states[j], events[j], pid, s) && events[j].e.delay == delay
  }

  /** Every plan of a run goes back to a configuration read of its own process. */
  lemma {:induction false} PlansAreSourced(states: seq<Sys>, events: seq<Event>, k: nat, pid: Pid)
    requires IsRun(states, events) && k < |states| && pid in states[k].procs
    ensures var p := states[k].procs[pid];
            Shape(p) && (p.plan.Read? && p.plan.enabled ==> Sourced(states, events, k, pid, p.todo[0].s, p.plan.delay))
  {
    hide Inv, Next, Enabled, Shape, ReadsDelay, Moves;
    assert k > 0;
    var g, ev := states[k - 1], events[k - 1];
    Reachable(states, events, k - 1);
    if pid in g.procs {
      PlansAreSourced(states, events, k - 1, pid);
      if Moves(g, ev, pid) { ShapeMoves(g, ev, pid); } else { OthersStay(g, ev, pid); }
    } else {
      ShapeBorn(g, ev, pid);
    }
    ShapeParts(states[k].procs[pid]);
  }

  lemma ShapeParts(p: Proc)
    requires Shape(p)
    ensures PlanAhead(p)
  {
  }

  /** The deadline of every stored wait is a boot delay that the scheduler read from UCI for the same
      service, and found it enabled, earlier in the run. */
  lemma {:induction false} WaitIsConfigured(states: seq<Sys>, events: seq<Event>, i: nat, s: Service, token: Token, deadline: Delay)
    requires IsRun(states, events) && i < |states| && states[i].files.At(s).boot == Some(Wait(token, deadline))
    ensures exists j :: 0 <= j < i && Runs(states[j], events[j], ReadConfig(s)) && events[j].e.enabled && events[j].e.delay == deadline
  {
    hide Inv, Next, Enabled, LineMove, Sourced;
    assert i > 0;
    var g, ev := states[i - 1], events[i - 1];
    if g.files.At(s).boot == Some(Wait(token, deadline)) {
      WaitIsConfigured(states, events, i - 1, s, token, deadline);
    } else {
      Reachable(states, events, i - 1);
      LineMoves(g, ev, s);
      PlansAreSourced(states, events, i - 1, ev.pid);
      SourceOf(states, events, i - 1, ev.pid, s, deadline);
    }
  }

  lemma SourceOf(states: seq<Sys>, events: seq<Event>, k: nat, pid: Pid, s: Service, delay: Delay)
    requires |states| > |events| >= k && Sourced(states, events, k, pid, s, delay)
    ensures exists j :: 0 <= j < k && Runs(states[j], events[j], ReadConfig(s)) && events[j].e.enabled && events[j].e.delay == delay
  {
  }

  /** `ev` reads the boot delay configured for `s`: the scheduler does, or an automatic start. */
  predicate Configures(g: Sys, ev: Event, s: Service) {
    Runs(g, ev, ReadConfig(s)) || Runs(g, ev, DecideStart(s, Automatic))
  }

  lemma {:induction false} TimeGoesOn(states: seq<Sys>, events: seq<Event>, i: nat, k: nat)
    requires IsRun(states, events) && i <= k < |states|
    ensures states[i].now <= states[k].now
  {
    hide Enabled;
    if i < k {
      TimeGoesOn(states, events, i, k - 1);
      NowGrows(states[k - 1], events[k - 1]);
    }
  }

  lemma NowGrows(g: Sys, ev: Event)
    requires Enabled(g, ev)
    ensures g.now <= Next(g, ev).now
  {
    hide Local, AfterRelease, Continue, Remembered;
  }

  /** Whoever starts first, and however UCI changes meanwhile: unless the line says that somebody
      started it by hand, no instance appears before a boot delay that was read for this service in
      this run has passed. */
  lemma NoInstanceBeforeItsDelay(states: seq<Sys>, events: seq<Event>, i: nat, s: Service)
    requires IsRun(states, events) && i < |events| && Registers(states, i, s)
    requires s !in states[i].past.misled && states[i].files.At(s).boot != Some(Manual)
    ensures exists j :: 0 <= j < i && Configures(states[j], events[j], s) && states[i].now >= events[j].e.delay
  {
    hide Next, Enabled, RipeNow;
    NoEarlyStart(states, events, i, s);
    var m :| 0 <= m < i && m < |events| && RipeNow(states[m], events[m], s);
    TimeGoesOn(states, events, m, i);
    RipeIsConfigured(states, events, m, s);
  }

  lemma RipeIsConfigured(states: seq<Sys>, events: seq<Event>, m: nat, s: Service)
    requires IsRun(states, events) && m < |events| && RipeNow(states[m], events[m], s)
    ensures exists j :: 0 <= j <= m && Configures(states[j], events[j], s) && states[m].now >= events[j].e.delay
  {
    hide Next, Enabled;
    match states[m].files.At(s).boot
    case Some(Wait(token, deadline)) =>
      WaitIsConfigured(states, events, m, s, token, deadline);
      var j :| 0 <= j < m && Runs(states[j], events[j], ReadConfig(s)) && events[j].e.enabled && events[j].e.delay == deadline;
      assert Configures(states[j], events[j], s);
    case None => assert Configures(states[m], events[m], s);
    case Some(_) =>
  }

  // ------------------------------------------------------- waits are acted upon

  /** The scheduler starts `boot_expired` at once for a wait that is over already, and waits for it; for
      one still ahead it starts a runner. Either is for the very wait it has armed. */
  lemma SupervisorStarts(g: Sys, ev: Event, s: Service)
    requires Inv(g) && Enabled(g, ev) && Runs(g, ev, Supervise(s)) && g.procs[ev.pid].plan.Armed?
    ensures var plan, h := g.procs[ev.pid].plan, Next(g, ev);
      && g.next in h.procs
      && (if plan.at >= plan.deadline
          then h.procs[g.next] == NewProc(Command(s), ExpiryProgram(s, plan.token, plan.deadline))
               && ev.pid in h.procs && h.procs[ev.pid].todo[0] == Join(g.next)
          else h.procs[g.next] == NewProc(Runner, [Poll(s, plan.token, plan.deadline)]))
  {
    hide ProcOk, SvcOk;
    assert g.next !in g.procs;
  }

  /** A runner that keeps seeing its wait goes on to `boot_expired` as soon as the clock allows: it looks
      at the clock, looks again once the deadline has come, and becomes the command. */
  lemma DueWaitIsExpired(g: Sys, ev: Event, s: Service, token: Token, deadline: nat)
    requires Enabled(g, ev) && ev.Run? && g.files.At(s).Waiting(token, deadline) && ev.e.bootReadOk
    ensures Runs(g, ev, Poll(s, token, deadline)) ==>
              ev.pid in Next(g, ev).procs && Next(g, ev).procs[ev.pid].todo == [CheckClock(s, token, deadline)]
    ensures Runs(g, ev, CheckClock(s, token, deadline)) && ev.e.uptime.Some? ==>
              ev.pid in Next(g, ev).procs
              && Next(g, ev).procs[ev.pid].todo == [if g.now >= deadline then Recheck(s, token, deadline) else Poll(s, token, deadline)]
    ensures Runs(g, ev, Recheck(s, token, deadline)) ==>
              ev.pid in Next(g, ev).procs
              && Next(g, ev).procs[ev.pid] == NewProc(Command(s), ExpiryProgram(s, token, deadline))
  {
    hide Remembered, AfterRelease;
  }
}
