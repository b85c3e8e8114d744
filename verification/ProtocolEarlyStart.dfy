/** The early start that one unreadable boot line allows, as a concrete run. */
module ProtocolEarlyStart {
  import opened Common
  import opened Lifecycle
  import opened Protocol
  import opened ProtocolLocal
  import opened ProtocolTheorems

  /** `ev` leads from `g` to `h`, and the wait of FakeSIP is not over when it happens. */
  predicate Leads(g: Sys, ev: Event, h: Sys) {
    Enabled(g, ev) && !RipeNow(g, ev, FakeSip) && Next(g, ev) == h
  }

  /** Every read and every write succeeds, at boot and with a delay of forty seconds. */
  const LUCKY := Env(true, true, true, true, true, true, true, true, 40, Some(0), true, true)

  const PENDING := Svc(Some(Wait("a", 40)), None, false, false)

  const ARMED := History({"a"}, {}, {})

  /** What the scheduler has left after `k` operations for FakeSIP. */
  function SchedulerTodo(k: nat): (todo: seq<Op>)
    requires k <= 5
    ensures todo != []
    ensures k < 5 ==> todo[0] == ScheduleBody(FakeSip)[k] && todo[1..] == SchedulerTodo(k + 1)
    decreases 5 - k
  {
    assert k < 5 ==> (ScheduleBody(FakeSip)[k..] + ScheduleBody(FakeHttp))[1..] == ScheduleBody(FakeSip)[k + 1..] + ScheduleBody(FakeHttp);
    ScheduleBody(FakeSip)[k..] + ScheduleBody(FakeHttp)
  }

  function SchedulerAt(k: nat, locked: bool, plan: Plan): Proc
    requires k <= 5
  {
    Proc(Scheduler, SchedulerTodo(k), true, if locked then Some(FakeSip) else None, if locked then 1 else 0, false, plan)
  }

  /** Only the scheduler, process 0, is there. */
  function Arming(p: Proc, v: Svc, past: History): Sys {
    Sys(Files(v, BOOT.files.http), 0, 1, map[0 := p], if p.locked.Some? then map[FakeSip := 0] else map[], map[SchedulerLock := 0], past)
  }

  /** The scheduler has gone on to FakeHTTP; process 1 is the runner and later the command. */
  function Running(p: Proc, v: Svc, misled: set<Service>): Sys {
    Sys(Files(v, BOOT.files.http), 0, 2, map[0 := SchedulerAt(5, false, Idle), 1 := p], if p.locked.Some? then map[FakeSip := 1] else map[],
        if p.procd then map[SchedulerLock := 0, ServiceLock(FakeSip) := 1] else map[SchedulerLock := 0],
        ARMED.(misled := misled))
  }

  const SPAWNED := BOOT.(procs := map[0 := NewProc(Scheduler, [TakeProcd(SchedulerLock)] + SchedulerTodo(0))], next := 1)

  const EXPIRED := Svc(Some(Done("a", 40)), None, false, false)

  function Commanding(todo: seq<Op>, depth: nat, inst: bool): Proc {
    Proc(Command(FakeSip), todo, true, if depth > 0 then Some(FakeSip) else None, depth, inst, Idle)
  }

  const DECIDED: seq<Op> := [Kill(FakeSip), Clean(FakeSip), Validate(FakeSip), Release(FakeSip), Submit(FakeSip), Release(FakeSip)]

  /** The states of the run: the scheduler arms a wait of forty seconds and starts its runner, which
      cannot read the line once, leaves its loop, reads it again and calls boot_expired. */
  function StateAt(k: int): Sys {
    match k
    case 0 => BOOT
    case 1 => SPAWNED
    case 2 => Arming(SchedulerAt(0, false, Idle), BOOT.files.sip, BOOT.past)
    case 3 => Arming(SchedulerAt(1, false, Read(true, 40, 0)), BOOT.files.sip, BOOT.past)
    case 4 => Arming(SchedulerAt(2, true, Read(true, 40, 0)), BOOT.files.sip, BOOT.past)
    case 5 => Arming(SchedulerAt(3, true, Armed("a", 40, 0)), PENDING, ARMED)
    case 6 => Arming(SchedulerAt(4, false, Armed("a", 40, 0)), PENDING, ARMED)
    case 7 => Running(NewProc(Runner, [Poll(FakeSip, "a", 40)]), PENDING, {})
    case 8 => Running(NewProc(Runner, [Recheck(FakeSip, "a", 40)]), PENDING, {FakeSip})
    case 9 => Running(NewProc(Command(FakeSip), ExpiryProgram(FakeSip, "a", 40)), PENDING, {FakeSip})
    case 10 => Running(Commanding(ExpiryProgram(FakeSip, "a", 40)[1..], 0, false), PENDING, {FakeSip})
    case 11 => Running(Commanding([ExpiryGate(FakeSip, "a", 40), Release(FakeSip)], 1, false), PENDING, {FakeSip})
    case 12 => Running(Commanding(StartBody(FakeSip, BootExpired("a", 40)) + [Release(FakeSip)], 1, false), PENDING, {FakeSip})
    case 13 => Running(Commanding([DecideStart(FakeSip, BootExpired("a", 40))] + DECIDED[3..], 2, false), PENDING, {FakeSip})
    case 14 => Running(Commanding(DECIDED[0..], 2, false), EXPIRED, {FakeSip})
    case 15 => Running(Commanding(DECIDED[1..], 2, false), EXPIRED, {FakeSip})
    case 16 => Running(Commanding(DECIDED[2..], 2, false), EXPIRED, {FakeSip})
    case 17 => Running(Commanding(DECIDED[3..], 2, true), EXPIRED, {FakeSip})
    case 18 => Running(Commanding(DECIDED[4..], 1, true), EXPIRED, {FakeSip})
    case _ => Running(Commanding(DECIDED[5..], 1, false), EXPIRED.(registered := true), {FakeSip})
  }

  function EventAt(k: int): Event {
    if k == 0 then Spawn(SchedulerStart) else if k < 7 then Run(0, LUCKY, if k < 5 then "a" else "b")
    else Run(1, if k == 7 then LUCKY.(bootReadOk := false) else LUCKY, "b")
  }

  lemma WholeProgram()
    ensures Program(SchedulerStart) == [TakeProcd(SchedulerLock)] + SchedulerTodo(0)
  {
    hide ScheduleBody;
    var a, b := ScheduleBody(FakeSip), ScheduleBody(FakeHttp);
    assert a[0..] == a && [TakeProcd(SchedulerLock)] + a + b == [TakeProcd(SchedulerLock)] + (a + b);
  }

  lemma Spawns()
    ensures Leads(StateAt(0), EventAt(0), StateAt(1))
  {
    WholeProgram();
    hide SchedulerTodo, ScheduleBody, Program;
  }

  lemma Starts()
    ensures Leads(StateAt(1), EventAt(1), StateAt(2))
  {
    hide SchedulerTodo, ScheduleBody, Local;
  }

  /** The boot line of the run never counts as over at second zero. */
  predicate Ahead(v: Svc) {
    v.boot.Some? && (v.boot == PENDING.boot || v.boot == EXPIRED.boot)
  }

  lemma SchedulerStep(p: Proc, v: Svc, past: History, q: Proc, w: Svc)
    requires p.todo != [] && !LockOp(p.todo[0]) && !p.todo[0].DecideStart? && p.todo[0].s == FakeSip
    requires v.boot.None? && "a" !in past.issued
    requires Local(p.todo[0], v, p.(todo := p.todo[1..]), LUCKY, "a") == (w, q)
    requires q.todo != [] && q.locked == p.locked && q.procd == p.procd
    ensures Leads(Arming(p, v, past), Run(0, LUCKY, "a"),
                  Arming(q, w, if p.todo[0].ArmWait? then past.(issued := past.issued + {"a"}) else past))
  {
    hide Step, Local, Spoiled, AfterRelease;
    LocalStep(Arming(p, v, past), 0, LUCKY, "a");
  }

  lemma RunnerStep(p: Proc, v: Svc, misled: set<Service>, e: Env, q: Proc, w: Svc)
    requires p.todo != [] && !LockOp(p.todo[0]) && !p.todo[0].ArmWait? && p.todo[0].s == FakeSip && Ahead(v)
    requires e.uptime == Some(0) && (p.todo[0].DecideStart? ==> !Spoiled(p.todo[0].ctx, v, e) && p.todo[0].ctx.BootExpired?)
    requires Local(p.todo[0], v, p.(todo := p.todo[1..]), e, "b") == (w, q)
    requires q.todo != [] && q.locked == p.locked && q.procd == p.procd
    ensures Leads(Running(p, v, misled), Run(1, e, "b"),
                  Running(q, w, if Misleads(p.todo[0], v, p.plan, e, 0) then misled + {FakeSip} else misled))
  {
    hide Step, Local, Spoiled, Misleads, AfterRelease, SchedulerAt;
    LocalStep(Running(p, v, misled), 1, e, "b");
  }

  lemma Reads()
    ensures Leads(StateAt(2), EventAt(2), StateAt(3))
  {
    hide Leads, Arming;
    SchedulerStep(SchedulerAt(0, false, Idle), BOOT.files.sip, BOOT.past, SchedulerAt(1, false, Read(true, 40, 0)), BOOT.files.sip);
  }

  lemma SchedulerLocks(p: Proc, v: Svc, past: History)
    requires p.todo != [] && p.todo[0] == Acquire(FakeSip) && p.todo[1..] != [] && p.locked.None?
    requires v.boot.None? && "a" !in past.issued
    ensures Leads(Arming(p, v, past), Run(0, LUCKY, "a"),
                  Arming(p.(todo := p.todo[1..], locked := Some(FakeSip), depth := 1), v, past))
  {
    hide Local, Remembered, AfterRelease;
  }

  lemma Locks()
    ensures Leads(StateAt(3), EventAt(3), StateAt(4))
  {
    hide Leads, Arming;
    SchedulerLocks(SchedulerAt(1, false, Read(true, 40, 0)), BOOT.files.sip, BOOT.past);
  }

  lemma Arms()
    ensures Leads(StateAt(4), EventAt(4), StateAt(5))
  {
    hide Leads, Arming;
    SchedulerStep(SchedulerAt(2, true, Read(true, 40, 0)), BOOT.files.sip, BOOT.past, SchedulerAt(3, true, Armed("a", 40, 0)), PENDING);
    assert BOOT.past.issued + {"a"} == {"a"};
  }

  lemma Unlocks()
    ensures Leads(StateAt(5), EventAt(5), StateAt(6))
  {
    hide SchedulerTodo, AfterRelease, Local, Remembered;
  }

  lemma StartsRunner()
    ensures Leads(StateAt(6), EventAt(6), StateAt(7))
  {
    hide SchedulerTodo, AfterRelease, Local, Remembered;
  }

  lemma Slips()
    ensures Leads(StateAt(7), EventAt(7), StateAt(8))
  {
    hide Leads, Running;
    RunnerStep(NewProc(Runner, [Poll(FakeSip, "a", 40)]), PENDING, {}, LUCKY.(bootReadOk := false),
               NewProc(Runner, [Recheck(FakeSip, "a", 40)]), PENDING);
    var none: set<Service> := {};
    assert none + {FakeSip} == {FakeSip};
  }

  lemma LooksAgain()
    ensures Leads(StateAt(8), EventAt(8), StateAt(9))
  {
    hide Leads, Running;
    RunnerStep(NewProc(Runner, [Recheck(FakeSip, "a", 40)]), PENDING, {FakeSip}, LUCKY,
               NewProc(Command(FakeSip), ExpiryProgram(FakeSip, "a", 40)), PENDING);
  }

  lemma EntersCommand()
    ensures Leads(StateAt(9), EventAt(9), StateAt(10))
  {
    hide SchedulerTodo, AfterRelease, Local, Remembered;
  }

  lemma RunnerLocks(p: Proc, misled: set<Service>)
    requires p.todo != [] && p.todo[0] == Acquire(FakeSip) && p.todo[1..] != [] && p.locked.None?
    ensures Leads(Running(p, PENDING, misled), Run(1, LUCKY, "b"),
                  Running(p.(todo := p.todo[1..], locked := Some(FakeSip), depth := 1), PENDING, misled))
  {
    hide Local, Remembered, AfterRelease, SchedulerAt;
  }

  lemma EntersLock()
    ensures Leads(StateAt(10), EventAt(10), StateAt(11))
  {
    hide Leads, Running;
    RunnerLocks(Commanding(ExpiryProgram(FakeSip, "a", 40)[1..], 0, false), {FakeSip});
    assert ExpiryProgram(FakeSip, "a", 40)[1..][1..] == [ExpiryGate(FakeSip, "a", 40), Release(FakeSip)];
  }

  lemma PassesGate()
    ensures Leads(StateAt(11), EventAt(11), StateAt(12))
  {
    hide Leads, Running;
    RunnerStep(Commanding([ExpiryGate(FakeSip, "a", 40), Release(FakeSip)], 1, false), PENDING, {FakeSip}, LUCKY,
               Commanding(StartBody(FakeSip, BootExpired("a", 40)) + [Release(FakeSip)], 1, false), PENDING);
  }

  lemma EntersAgain()
    ensures Leads(StateAt(12), EventAt(12), StateAt(13))
  {
    hide SchedulerTodo, AfterRelease, Local, Remembered;
    assert (StartBody(FakeSip, BootExpired("a", 40)) + [Release(FakeSip)])[1..]
        == [DecideStart(FakeSip, BootExpired("a", 40))] + DECIDED[3..];
  }

  lemma Decides()
    ensures Leads(StateAt(13), EventAt(13), StateAt(14))
  {
    assert DecisionBody(FakeSip, Outcome.Launch) + DECIDED[3..] == DECIDED[0..];
    hide Leads, Running;
    RunnerStep(Commanding([DecideStart(FakeSip, BootExpired("a", 40))] + DECIDED[3..], 2, false), PENDING, {FakeSip}, LUCKY,
               Commanding(DECIDED[0..], 2, false), EXPIRED);
  }

  lemma Proceeds(k: nat, depth: nat, inst: bool, instAfter: bool, w: Svc)
    requires k < 5 && k != 3 && depth > 0
    requires Local(DECIDED[k], EXPIRED, Commanding(DECIDED[k + 1..], depth, inst), LUCKY, "b") == (w, Commanding(DECIDED[k + 1..], depth, instAfter))
    ensures Leads(Running(Commanding(DECIDED[k..], depth, inst), EXPIRED, {FakeSip}), Run(1, LUCKY, "b"),
                  Running(Commanding(DECIDED[k + 1..], depth, instAfter), w, {FakeSip}))
  {
    assert DECIDED[k..][0] == DECIDED[k] && DECIDED[k..][1..] == DECIDED[k + 1..];
    hide Local, Leads, Running;
    RunnerStep(Commanding(DECIDED[k..], depth, inst), EXPIRED, {FakeSip}, LUCKY, Commanding(DECIDED[k + 1..], depth, instAfter), w);
  }

  lemma Kills()
    ensures Leads(StateAt(14), EventAt(14), StateAt(15))
  {
    hide Leads, Running;
    Proceeds(0, 2, false, false, EXPIRED);
  }

  lemma Empties()
    ensures Leads(StateAt(15), EventAt(15), StateAt(16))
  {
    hide Leads, Running;
    Proceeds(1, 2, false, false, EXPIRED);
  }

  lemma Launches()
    ensures Leads(StateAt(16), EventAt(16), StateAt(17))
  {
    hide Leads, Running;
    Proceeds(2, 2, false, true, EXPIRED);
  }

  lemma LeavesOne()
    ensures Leads(StateAt(17), EventAt(17), StateAt(18))
  {
    hide SchedulerTodo, AfterRelease, Local, Remembered;
    assert DECIDED[3..][1..] == DECIDED[4..];
  }

  lemma Submits()
    ensures Leads(StateAt(18), EventAt(18), StateAt(19))
  {
    hide Leads, Running;
    Proceeds(4, 1, true, false, EXPIRED.(registered := true));
  }

  lemma EachLeads(k: nat)
    requires k < 19
    ensures Leads(StateAt(k), EventAt(k), StateAt(k + 1))
  {
    hide Leads, StateAt, EventAt;
    match k {
      case 0 => Spawns();
      case 1 => Starts();
      case 2 => Reads();
      case 3 => Locks();
      case 4 => Arms();
      case 5 => Unlocks();
      case 6 => StartsRunner();
      case 7 => Slips();
      case 8 => LooksAgain();
      case 9 => EntersCommand();
      case 10 => EntersLock();
      case 11 => PassesGate();
      case 12 => EntersAgain();
      case 13 => Decides();
      case 14 => Kills();
      case 15 => Empties();
      case 16 => Launches();
      case 17 => LeavesOne();
      case 18 => Submits();
    }
  }

  lemma AtBoot()
    ensures StateAt(0) == BOOT
  {
  }

  /** One failed poll at boot is enough: the instance appears at second zero of a wait of forty, and
      no wait has been over at any event of the run. */
  lemma EarlyStart() returns (states: seq<Sys>, events: seq<Event>)
    ensures IsRun(states, events) && |events| == 19
    ensures states[19].files.sip.registered && states[19].files.sip.boot == Some(Done("a", 40)) && states[19].now == 0
    ensures !WasRipe(states, events, 19, FakeSip)
  {
    states, events := seq(20, k => StateAt(k)), seq(19, k => EventAt(k));
    assert states[19].files.sip.registered && states[19].files.sip.boot == Some(Done("a", 40)) && states[19].now == 0;
    hide StateAt, EventAt, Enabled, RipeNow, Next;
    assert states[0] == BOOT by { AtBoot(); }
    forall k: nat | k < 19
      ensures Enabled(states[k], events[k]) && states[k + 1] == Next(states[k], events[k]) && !RipeNow(states[k], events[k], FakeSip)
    {
      EachLeads(k);
    }
  }
}
