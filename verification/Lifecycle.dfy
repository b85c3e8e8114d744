/** One service's boot line, link line and procd instance, and the init-script
    commands that change them.

    The functions give each command's effect on the shared files; `Shell` is the
    init script itself, with the shell variables that make the lifecycle lock
    re-entrant, and every method is proved to have exactly its function's effect
    and to leave the lock as it found it. */
module Lifecycle {
  import opened Common

  datatype Service = FakeSip | FakeHttp

  /** Seconds after boot; what `tf_boot_delay_value` can print. */
  type Delay = d: nat | d <= 600

  type Token = string

  /** The `phase token deadline` line; `Manual` and `Cancel` carry fixed tokens. */
  datatype BootLine =
    | Wait(token: Token, deadline: Delay)
    | Manual
    | Done(token: Token, deadline: Delay)
    | Cancel(reason: string)

  datatype LinkPhase = Up | Down
  datatype Link = Link(phase: LinkPhase, generation: nat)

  /** Everything the commands of one service read and write. */
  datatype Svc = Svc(boot: Option<BootLine>, link: Option<Link>, registered: bool, nft: bool) {
    predicate Waiting(token: Token, deadline: nat) {
      boot.Some? && boot.value.Wait? && boot.value.token == token && boot.value.deadline == deadline
    }

    /** The boot decision has been taken in favour of running. */
    predicate Settled() {
      boot.Some? && (boot.value.Manual? || boot.value.Done?)
    }

    predicate Cancelled() {
      boot.Some? && boot.value.Cancel?
    }

    predicate LinkIsDown() {
      link.Some? && link.value.phase == Down
    }

    function Generation(): nat {
      if link.None? then 0 else link.value.generation
    }
  }

  datatype Files = Files(sip: Svc, http: Svc) {
    function At(s: Service): Svc {
      if s.FakeSip? then sip else http
    }

    function With(s: Service, v: Svc): (r: Files)
      ensures r.At(s) == v && forall o :: o != s ==> r.At(o) == At(o)
    {
      if s.FakeSip? then this.(sip := v) else this.(http := v)
    }
  }

  datatype Context =
    | IfdownDefinition
    | ManualStart
    | BootExpired(token: Token, deadline: nat)
    | Automatic   // boot, auto and ifup share one branch
    | Unknown

  /** What one command observes of its surroundings: each field is the outcome
      of one read or one fallible operation. A line that cannot be read is taken
      for no line at all. */
  datatype Env = Env(
    lockOk: bool,            // state directory, flock
    bootReadOk: bool,        // the boot line can be read
    bootAgainOk: bool,       // it can be read when the command looks again
    linkReadOk: bool,
    matches: bool,           // device still selected and service still enabled
    present: bool,           // interface exists
    linkWriteOk: bool,
    enabled: bool,           // UCI as start_service loads it
    delay: Delay,
    uptime: Option<nat>,     // None when /proc/uptime is unreadable
    bootWriteOk: bool,
    launchOk: bool)          // binary executable and configuration valid

  /** How the decision branch of `start_service` continues. */
  datatype Outcome = Failed | Quiet | Disabled | Launch

  // ---------------------------------------------------------------- effects

  /** What a reader makes of a line that may be unreadable. */
  function Seen(boot: Option<BootLine>, readOk: bool): Option<BootLine> {
    if readOk then boot else None
  }

  predicate ShouldDefer(boot: Option<BootLine>, delay: Delay, uptime: Option<nat>) {
    match boot
    case Some(Wait(_, deadline)) => uptime.None? || uptime.value < deadline
    case Some(Cancel(_)) => true
    case Some(_) => false
    case None => uptime.None? || uptime.value < delay
  }

  /** The boot-line decision of `start_service` for one context. */
  function Decide(ctx: Context, v: Svc, e: Env): (Svc, Outcome) {
    match ctx
    case IfdownDefinition => (v, Quiet)
    case Unknown => (v, Failed)
    case ManualStart =>
      if !e.bootWriteOk then (v, Failed)
      else if e.enabled then (v.(boot := Some(Manual)), Launch)
      else (v.(boot := Some(Cancel("disabled"))), Disabled)
    case BootExpired(token, deadline) =>
      if !e.bootAgainOk || !v.Waiting(token, deadline) then (v, Quiet)
      else if !e.bootWriteOk then (v, Failed)
      else if !e.enabled then (v.(boot := Some(Cancel("disabled"))), Quiet)
      else (v.(boot := Some(Done(token, deadline))), if e.linkReadOk && v.LinkIsDown() then Quiet else Launch)
    case Automatic =>
      if !e.enabled then
        if e.bootWriteOk then (v.(boot := Some(Cancel("disabled"))), Disabled) else (v, Failed)
      else if ShouldDefer(Seen(v.boot, e.bootReadOk), e.delay, e.uptime) then (v, Quiet)
      else if e.bootAgainOk && v.Settled() then (v, Launch)
      else if e.bootWriteOk then (v.(boot := Some(Done("automatic", e.delay))), Launch)
      else (v, Failed)
  }

  /** procd_kill followed by removal of the nft table. */
  function Cleared(v: Svc): Svc {
    v.(registered := false, nft := false)
  }

  /** `start_service`: the files afterwards and whether an instance was launched. */
  function StartLocked(ctx: Context, v: Svc, e: Env): (Svc, bool) {
    var (w, o) := Decide(ctx, v, e);
    match o
    case Failed => (w, false)
    case Quiet => (w, false)
    case Disabled => (Cleared(w), false)
    case Launch => (Cleared(w), e.launchOk)
  }

  /** rc.common's `start`: the definition replaces whatever procd had. */
  function StartEffect(ctx: Context, v: Svc, e: Env, lockOk: bool): Svc {
    if !lockOk then v.(registered := false)
    else var (w, launched) := StartLocked(ctx, v, e); w.(registered := launched)
  }

  /** The exit status of `start_service` once the lock is held. */
  predicate StartOk(ctx: Context, v: Svc, e: Env) {
    match Decide(ctx, v, e).1
    case Failed => false
    case Launch => e.launchOk
    case _ => true
  }

  /** The generation `tf_link_state_set` counts on from. */
  function SeenGeneration(v: Svc, readOk: bool): nat {
    if readOk then v.Generation() else 0
  }

  function LinkRecorded(v: Svc, phase: LinkPhase, readOk: bool, writeOk: bool): Option<Svc> {
    if SeenGeneration(v, readOk) < GENERATION_MAX && writeOk
    then Some(v.(link := Some(Link(phase, SeenGeneration(v, readOk) + 1))))
    else None
  }

  function LinkEffect(up: bool, v: Svc, e: Env): Svc {
    if !e.lockOk || !e.matches || (up && !e.present) then v
    else
      match LinkRecorded(v, if up then Up else Down, e.linkReadOk, e.linkWriteOk)
      case None => v
      case Some(w) => StartEffect(if up then Automatic else IfdownDefinition, Cleared(w), e, true)
  }

  predicate LinkOk(up: bool, v: Svc, e: Env) {
    e.lockOk &&
    (e.matches && (up ==> e.present) ==>
       match LinkRecorded(v, if up then Up else Down, e.linkReadOk, e.linkWriteOk)
       case None => false
       case Some(w) => StartOk(if up then Automatic else IfdownDefinition, Cleared(w), e))
  }

  function ExpiryEffect(token: Token, deadline: nat, v: Svc, e: Env): Svc {
    if !e.lockOk || !e.bootReadOk || !v.Waiting(token, deadline) then v
    else StartEffect(BootExpired(token, deadline), v, e, true)
  }

  function ReloadEffect(v: Svc, e: Env): Svc {
    if !e.lockOk then v else StartEffect(ManualStart, Cleared(v), e, true)
  }

  function StopEffect(v: Svc, e: Env): Svc {
    Cleared(if e.lockOk && e.bootWriteOk then v.(boot := Some(Cancel("explicit-stop"))) else v)
  }

  /** `restart` is `stop` then `start` in one process; each half has its own luck. */
  function RestartEffect(v: Svc, e: Env, f: Env): Svc {
    StartEffect(ManualStart, StopEffect(v, e), f, f.lockOk)
  }

  /** The scheduler's critical section: the files, and the wait it then supervises. */
  function Arm(v: Svc, enabled: bool, delay: Delay, newToken: Token, readOk: bool, writeOk: bool)
    : (Svc, Option<(Token, Delay)>)
  {
    var seen := Seen(v.boot, readOk);
    if !enabled then
      (if seen.Some? && seen.value.Wait? && writeOk then v.(boot := Some(Cancel("disabled"))) else v, None)
    else if seen.Some? && !seen.value.Wait? then (v, None)
    else if seen.Some? && seen.value.deadline == delay then (v, Some((seen.value.token, delay)))
    else if writeOk then (v.(boot := Some(Wait(newToken, delay))), Some((newToken, delay)))
    else (v, None)
  }

  /** `tf_schedule_boot_service` up to the choice between expiry and a runner. */
  function ScheduleEffect(v: Svc, now: Option<nat>, newToken: Token, e: Env): (Svc, Option<(Token, Delay)>) {
    if now.None? || !e.lockOk then (v, None) else Arm(v, e.enabled, e.delay, newToken, e.bootReadOk, e.bootWriteOk)
  }

  /** Arming fails only when a line it has to write cannot be written. */
  predicate ArmOk(v: Svc, enabled: bool, delay: Delay, readOk: bool, writeOk: bool) {
    var seen := Seen(v.boot, readOk);
    writeOk || (if enabled then seen.Some? && (seen.value.Wait? ==> seen.value.deadline == delay)
                else seen.None? || !seen.value.Wait?)
  }

  /** The scheduler's stop: only a pending wait is cancelled. */
  function WaitCancelled(v: Svc, ok: bool): Svc {
    if v.boot.Some? && v.boot.value.Wait? && ok then v.(boot := Some(Cancel("scheduler-stop"))) else v
  }

  predicate CancelOk(v: Svc, e: Env) {
    e.lockOk && (v.boot.Some? && v.boot.value.Wait? && e.bootReadOk ==> e.bootWriteOk)
  }

  // ------------------------------------------------------------- the script

  class Shell {
    var locked: Option<Service>   // TF_LIFECYCLE_LOCKED
    var depth: nat                // TF_LIFECYCLE_LOCK_DEPTH
    var fd9: Option<Service>      // whose flock this process holds
    var files: Files

    /** The flock is held exactly while the depth is positive, for one service. */
    ghost predicate Valid()
      reads this
    {
      fd9 == locked && (locked.Some? <==> depth > 0)
    }

    constructor (shared: Files)
      ensures Valid() && depth == 0 && files == shared
    {
      locked, depth, fd9, files := None, 0, None, shared;
    }

    method LockAcquire(s: Service, ok: bool) returns (success: bool)
      requires Valid()
      modifies this`locked, this`depth, this`fd9
      ensures Valid()
      ensures success <==> old(locked) == Some(s) || (old(locked).None? && ok)
      ensures success ==> locked == Some(s) && depth == old(depth) + 1
      ensures !success ==> locked == old(locked) && depth == old(depth)
    {
      if locked.Some? {
        if locked.value != s { return false; }
        depth := depth + 1;
        return true;
      }
      if !ok { return false; }
      fd9 := Some(s);
      locked, depth := Some(s), 1;
      return true;
    }

    method LockRelease(s: Service) returns (success: bool)
      requires Valid()
      modifies this`locked, this`depth, this`fd9
      ensures Valid()
      ensures success <==> old(locked) == Some(s)
      ensures success ==> depth == old(depth) - 1 && (locked == if depth == 0 then None else Some(s))
      ensures !success ==> locked == old(locked) && depth == old(depth)
    {
      if locked != Some(s) { return false; }
      depth := depth - 1;
      if depth != 0 { return true; }
      fd9 := None;
      locked := None;
      return true;
    }

    method BootStateSet(s: Service, line: BootLine, ok: bool) returns (success: bool)
      modifies this`files
      ensures success == ok
      ensures files == if ok then old(files).With(s, old(files).At(s).(boot := Some(line))) else old(files)
    {
      if ok { files := files.With(s, files.At(s).(boot := Some(line))); }
      return ok;
    }

    method LinkStateSet(s: Service, phase: LinkPhase, readOk: bool, ok: bool) returns (success: bool)
      requires Valid()
      modifies this`files
      ensures success <==> locked == Some(s) && LinkRecorded(old(files).At(s), phase, readOk, ok).Some?
      ensures files == if success then old(files).With(s, LinkRecorded(old(files).At(s), phase, readOk, ok).value)
                       else old(files)
    {
      if locked != Some(s) { return false; }
      var v := files.At(s);
      var generation := 0;
      if readOk && v.link.Some? { generation := v.link.value.generation; }
      if generation >= GENERATION_MAX || !ok { return false; }
      files := files.With(s, v.(link := Some(Link(phase, generation + 1))));
      return true;
    }

    method ProcdKill(s: Service)
      modifies this`files
      ensures files == old(files).With(s, old(files).At(s).(registered := false))
    {
      files := files.With(s, files.At(s).(registered := false));
    }

    method CleanupNftTable(s: Service)
      modifies this`files
      ensures files == old(files).With(s, old(files).At(s).(nft := false))
    {
      files := files.With(s, files.At(s).(nft := false));
    }

    /** fs_start_service_locked: returns its status and whether an instance was launched. */
    method StartServiceLocked(s: Service, ctx: Context, e: Env) returns (ok: bool, launched: bool)
      requires Valid() && locked == Some(s)
      modifies this`files
      ensures (files, launched) == (old(files).With(s, StartLocked(ctx, old(files).At(s), e).0),
                                  StartLocked(ctx, old(files).At(s), e).1)
      ensures ok == StartOk(ctx, old(files).At(s), e)
    {
      ok := true;
      var v := files.At(s);
      match ctx {
        case IfdownDefinition => return true, false;
        case Unknown => return false, false;
        case ManualStart =>
          if e.enabled {
            ok := BootStateSet(s, Manual, e.bootWriteOk);
            if !ok { return false, false; }
          } else {
            ok := BootStateSet(s, Cancel("disabled"), e.bootWriteOk);
            if !ok { return false, false; }
            ProcdKill(s);
            CleanupNftTable(s);
            return true, false;
          }
        case BootExpired(token, deadline) =>
          if !(e.bootAgainOk && v.Waiting(token, deadline)) { return true, false; }
          if !e.enabled {
            ok := BootStateSet(s, Cancel("disabled"), e.bootWriteOk);
            return ok, false;
          }
          ok := BootStateSet(s, Done(token, deadline), e.bootWriteOk);
          if !ok { return false, false; }
          if e.linkReadOk && files.At(s).LinkIsDown() { return true, false; }
        case Automatic =>
          if !e.enabled {
            ok := BootStateSet(s, Cancel("disabled"), e.bootWriteOk);
            if !ok { return false, false; }
            ProcdKill(s);
            CleanupNftTable(s);
            return true, false;
          }
          if ShouldDefer(Seen(v.boot, e.bootReadOk), e.delay, e.uptime) { return true, false; }
          if !(e.bootAgainOk && v.Settled()) {
            ok := BootStateSet(s, Done("automatic", e.delay), e.bootWriteOk);
            if !ok { return false, false; }
          }
      }
      ProcdKill(s);
      CleanupNftTable(s);
      return e.launchOk, e.launchOk;
    }

    /** rc.common's start around start_service: procd receives the definition last. */
    method Start(s: Service, ctx: Context, e: Env) returns (ok: bool)
      requires Valid() && (locked.None? || locked == Some(s))
      modifies this
      ensures Valid() && locked == old(locked) && depth == old(depth)
      ensures files == old(files).With(s, StartEffect(ctx, old(files).At(s), e, old(locked).Some? || e.lockOk))
      ensures ok == ((old(locked).Some? || e.lockOk) && StartOk(ctx, old(files).At(s), e))
      ensures ctx.ManualStart? && ok ==> files.At(s).registered == e.enabled
    {
      var launched := false;
      ok := LockAcquire(s, e.lockOk);
      if ok {
        ok, launched := StartServiceLocked(s, ctx, e);
        var released := LockRelease(s);
        ok := ok && released;
      }
      files := files.With(s, files.At(s).(registered := launched));
    }

    method LinkEvent(s: Service, up: bool, e: Env) returns (ok: bool)
      requires Valid() && locked.None?
      modifies this
      ensures Valid() && locked.None?
      ensures files == old(files).With(s, LinkEffect(up, old(files).At(s), e))
      ensures ok == LinkOk(up, old(files).At(s), e)
    {
      ok := LockAcquire(s, e.lockOk);
      if !ok { return; }
      if !e.matches || (up && !e.present) {
        ok := LockRelease(s);
        return;
      }
      ok := LinkStateSet(s, if up then Up else Down, e.linkReadOk, e.linkWriteOk);
      if ok {
        ProcdKill(s);
        CleanupNftTable(s);
        ok := Start(s, if up then Automatic else IfdownDefinition, e);
      }
      var released := LockRelease(s);
      ok := ok && released;
    }

    method BootExpiredCommand(s: Service, token: Token, deadline: nat, e: Env) returns (ok: bool)
      requires Valid() && locked.None?
      modifies this
      ensures Valid() && locked.None?
      ensures files == old(files).With(s, ExpiryEffect(token, deadline, old(files).At(s), e))
      ensures ok == (e.lockOk && (e.bootReadOk ==> StartOk(BootExpired(token, deadline), old(files).At(s), e)))
    {
      ok := LockAcquire(s, e.lockOk);
      if !ok { return; }
      if !(e.bootReadOk && files.At(s).Waiting(token, deadline)) {
        ok := LockRelease(s);
        return;
      }
      ok := Start(s, BootExpired(token, deadline), e);
      var released := LockRelease(s);
      ok := ok && released;
    }

    method ReloadService(s: Service, e: Env) returns (ok: bool)
      requires Valid() && locked.None?
      modifies this
      ensures Valid() && locked.None?
      ensures files == old(files).With(s, ReloadEffect(old(files).At(s), e))
      ensures ok == (e.lockOk && StartOk(ManualStart, Cleared(old(files).At(s)), e))
    {
      ok := LockAcquire(s, e.lockOk);
      if !ok { return; }
      ProcdKill(s);
      CleanupNftTable(s);
      ok := Start(s, ManualStart, e);
      var released := LockRelease(s);
      ok := ok && released;
    }

    /** rc.common's stop: stop_service, procd_kill, service_stopped. */
    method Stop(s: Service, e: Env) returns (ok: bool)
      requires Valid() && locked.None?
      modifies this
      ensures Valid() && locked.None?
      ensures files == old(files).With(s, StopEffect(old(files).At(s), e))
      ensures ok == (e.lockOk && e.bootWriteOk)
    {
      ok := LockAcquire(s, e.lockOk);
      if ok {
        ok := BootStateSet(s, Cancel("explicit-stop"), e.bootWriteOk);
        var released := LockRelease(s);
        ok := ok && released;
      }
      ProcdKill(s);
      CleanupNftTable(s);
    }

    method Restart(s: Service, e: Env, f: Env) returns (ok: bool)
      requires Valid() && locked.None?
      modifies this
      ensures Valid() && locked.None?
      ensures files == old(files).With(s, RestartEffect(old(files).At(s), e, f))
      ensures ok == (f.lockOk && StartOk(ManualStart, StopEffect(old(files).At(s), e), f))
    {
      ok := Stop(s, e);
      ok := Start(s, ManualStart, f);
    }

    /** tf_schedule_boot_service up to the choice between expiry and a runner.
        `plan` is the wait to supervise, None when there is nothing to do. */
    method ScheduleBootService(s: Service, now: Option<nat>, newToken: Token, e: Env)
      returns (ok: bool, plan: Option<(Token, Delay)>)
      requires Valid() && locked.None?
      modifies this
      ensures Valid() && locked.None?
      ensures files == old(files).With(s, ScheduleEffect(old(files).At(s), now, newToken, e).0)
      ensures plan == ScheduleEffect(old(files).At(s), now, newToken, e).1
      ensures ok == (now.Some? && e.lockOk && ArmOk(old(files).At(s), e.enabled, e.delay, e.bootReadOk, e.bootWriteOk))
      ensures plan.Some? ==> e.enabled && plan.value.1 == e.delay && files.At(s).Waiting(plan.value.0, e.delay)
    {
      plan := None;
      if now.None? { return false, None; }
      ok := LockAcquire(s, e.lockOk);
      if !ok { return; }
      var state := Seen(files.At(s).boot, e.bootReadOk);
      if !e.enabled {
        if state.Some? && state.value.Wait? {
          ok := BootStateSet(s, Cancel("disabled"), e.bootWriteOk);
        }
        var _ := LockRelease(s);
        return;
      }
      match state {
        case Some(Wait(token, deadline)) =>
          plan := Some((token, deadline));
          if deadline != e.delay {
            ok := BootStateSet(s, Wait(newToken, e.delay), e.bootWriteOk);
            plan := if ok then Some((newToken, e.delay)) else None;
          }
        case Some(_) =>
        case None =>
          ok := BootStateSet(s, Wait(newToken, e.delay), e.bootWriteOk);
          plan := if ok then Some((newToken, e.delay)) else None;
      }
      var _ := LockRelease(s);
    }

    /** tf_cancel_boot_waits: one lock at a time, going on after a failure. */
    method CancelBootWaits(sip: Env, http: Env) returns (ok: bool)
      requires Valid() && locked.None?
      modifies this
      ensures Valid() && locked.None?
      ensures files == Files(WaitCancelled(old(files).sip, sip.lockOk && sip.bootReadOk && sip.bootWriteOk),
                             WaitCancelled(old(files).http, http.lockOk && http.bootReadOk && http.bootWriteOk))
      ensures ok == (CancelOk(old(files).sip, sip) && CancelOk(old(files).http, http))
    {
      ok := true;
      var i := 0;
      while i < 2
        invariant 0 <= i <= 2 && Valid() && locked.None?
        invariant files.sip == if i == 0 then old(files).sip else WaitCancelled(old(files).sip, sip.lockOk && sip.bootReadOk && sip.bootWriteOk)
        invariant ok == ((i == 0 || CancelOk(old(files).sip, sip)) && (i <= 1 || CancelOk(old(files).http, http)))
        invariant files.http == if i <= 1 then old(files).http else WaitCancelled(old(files).http, http.lockOk && http.bootReadOk && http.bootWriteOk)
      {
        var s, e := if i == 0 then FakeSip else FakeHttp, if i == 0 then sip else http;
        var acquired := LockAcquire(s, e.lockOk);
        if acquired {
          var state := Seen(files.At(s).boot, e.bootReadOk);
          if state.Some? && state.value.Wait? {
            var written := BootStateSet(s, Cancel("scheduler-stop"), e.bootWriteOk);
            ok := ok && written;
          }
          var released := LockRelease(s);
          ok := ok && released;
        } else {
          ok := false;
        }
        i := i + 1;
      }
    }
  }

  // ------------------------------------------- what the effects mean together

  /** Exactly when `boot_expired` changes nothing at all. */
  lemma StaleExpiryIsNoOp(token: Token, deadline: nat, v: Svc, e: Env)
    ensures ExpiryEffect(token, deadline, v, e) == v <==>
              (!e.lockOk || !e.bootReadOk || !v.Waiting(token, deadline)
               || (!v.registered && (!e.bootAgainOk || !e.bootWriteOk)))
  {
  }

  /** Exactly when `boot_expired` brings up a service that is down. */
  lemma ExpiryStarts(token: Token, deadline: nat, v: Svc, e: Env)
    requires !v.registered
    ensures ExpiryEffect(token, deadline, v, e).registered <==>
              && v.Waiting(token, deadline) && !(e.linkReadOk && v.LinkIsDown())
              && e.lockOk && e.bootReadOk && e.bootAgainOk && e.enabled && e.bootWriteOk && e.launchOk
  {
  }

  /** An automatic start cannot read the boot line and goes by the configured delay alone. */
  predicate Overlooks(e: Env) {
    !e.bootReadOk && e.enabled && e.uptime.Some? && e.uptime.value >= e.delay && e.bootWriteOk
  }

  predicate LinkEventRecorded(up: bool, v: Svc, e: Env) {
    && e.lockOk && e.matches && (up ==> e.present) && e.linkWriteOk
    && SeenGeneration(v, e.linkReadOk) < GENERATION_MAX
  }

  /** After a successful explicit stop neither expiry nor link-down moves the boot line or registers
      an instance; link-up and automatic starts do so exactly when they overlook the line. */
  lemma CancelHolds(v: Svc, e: Env, token: Token, deadline: nat, up: bool)
    requires v.Cancelled() && !v.registered
    ensures ExpiryEffect(token, deadline, v, e) == v
    ensures var w := StartEffect(Automatic, v, e, e.lockOk);
            && (w.Cancelled() <==> !(e.lockOk && Overlooks(e)))
            && (w.registered <==> !w.Cancelled() && e.launchOk)
    ensures var w := LinkEffect(up, v, e);
            && (w.Cancelled() <==> !(up && LinkEventRecorded(up, v, e) && Overlooks(e)))
            && (w.registered <==> !w.Cancelled() && e.launchOk)
  {
  }

  /** Link-up and expiry in either order, each with its own reading of UCI and the clock, on a
      pending wait whose link is down: the link line is the same and the boot line is done either
      way, and the service runs as soon as whichever start was the last to be let through launches. */
  lemma ExpiryAndLinkUpCommute(v: Svc, token: Token, deadline: Delay, timer: Env, link: Env)
    requires v.Waiting(token, deadline) && v.LinkIsDown() && !v.registered
    requires timer.lockOk && timer.bootReadOk && timer.bootAgainOk && timer.linkReadOk && timer.enabled && timer.bootWriteOk
    requires LinkEventRecorded(true, v, link) && link.bootReadOk && link.bootAgainOk && link.enabled && link.bootWriteOk
    ensures var expired := ExpiryEffect(token, deadline, v, timer);
            var timerFirst := LinkEffect(true, expired, link);
            var linkFirst := LinkEffect(true, v, link);
            var linkThenTimer := ExpiryEffect(token, deadline, linkFirst, timer);
            var due := link.uptime.Some? && link.uptime.value >= deadline;
            && !expired.registered && expired.boot == timerFirst.boot == Some(Done(token, deadline))
            && timerFirst.registered == link.launchOk
            && linkFirst.registered == (due && link.launchOk)
            && linkThenTimer.registered == (if due then link.launchOk else timer.launchOk)
            && timerFirst.link == linkThenTimer.link == Some(Link(Up, SeenGeneration(v, link.linkReadOk) + 1))
            && linkThenTimer.boot == Some(if due then Done("automatic", link.delay) else Done(token, deadline))
  {
  }

  /** The link lines: a pending wait survives link-down, a link event that is not recorded changes
      nothing, and a recorded one adds exactly one generation to what it read. */
  lemma LinkLineLaws(up: bool, v: Svc, e: Env)
    ensures var w := LinkEffect(up, v, e);
            && (if LinkEventRecorded(up, v, e)
                then w.link == Some(Link(if up then Up else Down, SeenGeneration(v, e.linkReadOk) + 1)) else w == v)
            && (LinkEventRecorded(up, v, e) && v.Generation() > 0 ==> (w.Generation() == v.Generation() + 1 <==> e.linkReadOk))
            && (w.Generation() <= GENERATION_MAX || w == v)
    ensures LinkEffect(false, v, e).boot == v.boot
    ensures LinkEffect(false, v, e) != v ==> !LinkEffect(false, v, e).registered && !LinkEffect(false, v, e).nft
  {
  }

  /** Whatever else goes wrong, an expiry that sees the link down starts nothing; if it retires the
      wait, the next recorded link-up that can read the line passes the boot gate whatever the clock says. */
  lemma ExpiryWhileDown(token: Token, deadline: nat, v: Svc, e: Env, later: Env)
    requires v.LinkIsDown() && !v.registered && e.linkReadOk
    ensures var w := ExpiryEffect(token, deadline, v, e);
            && !w.registered && w.link == v.link
            && (w.boot != v.boot <==> v.Waiting(token, deadline) && e.lockOk && e.bootReadOk && e.bootAgainOk && e.bootWriteOk)
            && (w.boot != v.boot ==> w.boot == Some(if e.enabled then Done(token, deadline) else Cancel("disabled")))
            && (w.Settled() && LinkEventRecorded(true, w, later) && later.enabled && later.bootReadOk && later.bootAgainOk
                ==> LinkEffect(true, w, later).registered == later.launchOk && LinkEffect(true, w, later).boot == w.boot)
  {
  }
}
