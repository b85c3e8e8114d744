/** What every run of the protocol keeps. Where an unreadable boot line can spoil a
    property, the condition is that no such read has misled a process so far. */
module ProtocolTheorems {
  import opened Common
  import opened Lifecycle
  import opened Protocol
  import opened ProtocolInvariant
  import opened ProtocolPreservation
  import opened ProtocolLocal

  // ---------------------------------------------------- how the line may move

  /** `ev` runs operation `op` of some process. */
  predicate Runs(g: Sys, ev: Event, op: Op) {
    ev.Run? && ev.pid in g.procs && g.procs[ev.pid].todo != [] && g.procs[ev.pid].todo[0] == op
  }

  /** `ev` is an enabled manual start, reload or restart taking its decision. */
  predicate StartsManually(g: Sys, ev: Event, s: Service) {
    Runs(g, ev, DecideStart(s, ManualStart)) && ev.e.enabled && ev.e.bootWriteOk
  }

  /** At this moment the wait then in force is over: the stored wait has reached its
      deadline, or no line is stored, and the delay just read from UCI has passed. */
  predicate RipeNow(g: Sys, ev: Event, s: Service) {
    match g.files.At(s).boot
    case Some(Wait(_, deadline)) => g.now >= deadline
    case Some(_) => false
    case None => Runs(g, ev, DecideStart(s, Automatic)) && g.now >= ev.e.delay
  }

  /** `ev` arms a wait of `s` for the delay its process read from UCI, with the service enabled. */
  predicate Arms(g: Sys, ev: Event, s: Service, deadline: Delay) {
    && Runs(g, ev, ArmWait(s))
    && g.procs[ev.pid].plan.Read? && g.procs[ev.pid].plan.enabled && g.procs[ev.pid].plan.delay == deadline
  }

  /** `ev` has a reason to cancel: an explicit stop, the scheduler's stop or its finding the service
      disabled while a wait is stored, or a start of a disabled service. */
  predicate Cancels(g: Sys, ev: Event, s: Service, v: Option<BootLine>) {
    && ev.Run? && ev.pid in g.procs && g.procs[ev.pid].todo != []
    && match g.procs[ev.pid].todo[0]
       case StopLine(o) => o == s
       case CancelWait(o) => o == s && v.Some? && v.value.Wait?
       case ArmWait(o) => o == s && v.Some? && v.value.Wait? && g.procs[ev.pid].plan.Read? && !g.procs[ev.pid].plan.enabled
       case DecideStart(o, ctx) => o == s && !ev.e.enabled
       case _ => false
  }

  /** Every change of a boot line. A done line is only marked done once more by a reader who
      could not read it. */
  predicate LineMove(g: Sys, ev: Event, s: Service, v: Option<BootLine>, w: Option<BootLine>) {
    w.Some? &&
    match w.value
    case Wait(token, deadline) => (v.None? || v.value.Wait?) && token !in g.past.issued && Arms(g, ev, s, deadline)
    case Manual => StartsManually(g, ev, s)
    case Done(_, _) => if v.Some? && v.value.Done? then ev.Run? && !ev.e.bootAgainOk
                       else (v.None? || v.value.Wait?) && RipeNow(g, ev, s)
    case Cancel(_) => Cancels(g, ev, s, v)
  }

  /** What the files are after one event. */
  function FilesAfter(g: Sys, ev: Event): Files
    requires Enabled(g, ev)
  {
    match ev
    case DaemonUp(s) => g.files.With(s, g.files.At(s).(nft := true))
    case Run(pid, e, newToken) =>
      var p := g.procs[pid];
      var op := p.todo[0];
      if LockOp(op) then g.files
      else g.files.With(op.s, Local(op, g.files.At(op.s), p.(todo := p.todo[1..]), e, newToken).0)
    case _ => g.files
  }

  lemma EventFiles(g: Sys, ev: Event)
    requires Enabled(g, ev)
    ensures Next(g, ev).files == FilesAfter(g, ev)
  {
    hide Local, AfterRelease, Continue;
  }

  /** What an event adds to the history. */
  lemma EventPast(g: Sys, ev: Event)
    requires Enabled(g, ev)
    ensures g.past.Before(Next(g, ev).past)
    ensures ev.Run? && !LockOp(g.procs[ev.pid].todo[0]) ==> Next(g, ev).past == Remembered(g, g.procs[ev.pid], ev.e, ev.newToken)
  {
    hide Local, AfterRelease, Continue, Remembered;
  }

  /** Every change of a boot line is a `LineMove`, unless a failed read has misled somebody; and
      whatever happens, a wait that is entered has a new token and the delay its scheduler read. */
  lemma LineMoves(g: Sys, ev: Event, s: Service)
    requires Inv(g) && Enabled(g, ev)
    ensures var v, w := g.files.At(s).boot, Next(g, ev).files.At(s).boot;
            v != w ==>
              && w.Some? && (w.value.Wait? ==> w.value.token !in g.past.issued && Arms(g, ev, s, w.value.deadline))
              && (s in Next(g, ev).past.misled || LineMove(g, ev, s, v, w))
  {
    hide ProcOk, SvcOk, LocksOk, Next, Remembered;
    EventFiles(g, ev);
    EventPast(g, ev);
    if ev.Run? {
      var p := g.procs[ev.pid];
      assert ProcOk(g, p);
      ProcParts(g, p);
      assert OpOk(g, p, p.todo[0]);
      if !LockOp(p.todo[0]) { LocalMoves(g, p, p.todo[0], ev); }
    }
  }

  lemma LocalMoves(g: Sys, p: Proc, op: Op, ev: Event)
    requires Runs(g, ev, op) && p == g.procs[ev.pid] && OpOk(g, p, op) && Enabled(g, ev)
    requires !LockOp(op)
    ensures var v, w := g.files.At(op.s).boot, Local(op, g.files.At(op.s), p.(todo := p.todo[1..]), ev.e, ev.newToken).0.boot;
            v != w ==>
              && w.Some? && (w.value.Wait? ==> w.value.token !in g.past.issued && Arms(g, ev, op.s, w.value.deadline))
              && (op.s in Remembered(g, p, ev.e, ev.newToken).misled || LineMove(g, ev, op.s, v, w))
  {
    hide Spoiled, CanRun;
  }

  // ------------------------------------------------------ no early start

  ghost predicate WasRipe(states: seq<Sys>, events: seq<Event>, i: nat, s: Service)
    requires IsRun(states, events)
  {
    exists j :: 0 <= j < i && j < |events| && RipeNow(states[j], events[j], s)
  }

  /** A boot line that says done was ripe at an earlier moment of the run. */
  lemma {:induction false} DoneWasRipe(states: seq<Sys>, events: seq<Event>, i: nat, s: Service)
    requires IsRun(states, events) && i < |states|
    requires states[i].files.At(s).boot.Some? && states[i].files.At(s).boot.value.Done?
    requires s !in states[i].past.misled
    ensures WasRipe(states, events, i, s)
  {
    hide Inv, Next, RipeNow, StartsManually, Enabled;
    if i > 0 {
      var g, ev := states[i - 1], events[i - 1];
      var v, w := g.files.At(s).boot, states[i].files.At(s).boot;
      EventPast(g, ev);
      if v == w || (v.Some? && v.value.Done?) {
        DoneWasRipe(states, events, i - 1, s);
      } else {
        Reachable(states, events, i - 1);
        LineMoves(g, ev, s);
        assert RipeNow(g, ev, s);
      }
    }
  }

  /** No early automatic start. Whatever the interleaving of schedulers, runners,
      hotplug and commands, and however UCI changes meanwhile: when an instance
      appears, either the boot line says that somebody started the service by hand,
      or the wait then stored (with no line, the delay then configured) had run out. */
  lemma NoEarlyStart(states: seq<Sys>, events: seq<Event>, i: nat, s: Service)
    requires IsRun(states, events) && i < |events|
    requires !states[i].files.At(s).registered && states[i + 1].files.At(s).registered
    requires s !in states[i].past.misled
    ensures states[i].files.At(s).boot == Some(Manual) || WasRipe(states, events, i, s)
  {
    Reachable(states, events, i);
    RegistrationIsSettled(states[i], events[i], s);
    if states[i].files.At(s).boot != Some(Manual) { DoneWasRipe(states, events, i, s); }
  }

  /** Instances are only ever created by the submission of a validated definition,
      and at that moment the boot line is settled, unless a failed read has misled somebody. */
  lemma RegistrationIsSettled(g: Sys, ev: Event, s: Service)
    requires Inv(g) && Enabled(g, ev)
    requires !g.files.At(s).registered && Next(g, ev).files.At(s).registered
    ensures Runs(g, ev, Submit(s)) && (g.files.At(s).Settled() || s in g.past.misled)
  {
    hide Next, SvcOk, LocksOk;
    EventFiles(g, ev);
    var p := g.procs[ev.pid];
    RegisteringOp(p.todo[0], g.files.At(s), p.(todo := p.todo[1..]), ev.e, ev.newToken);
    hide Local;
    assert ProcOk(g, p);
    TypedTail(g, p);
  }

  lemma RegisteringOp(op: Op, v: Svc, p: Proc, e: Env, tok: Token)
    ensures Local(op, v, p, e, tok).0.registered != v.registered
        ==> op.Kill? || (op.Submit? && Local(op, v, p, e, tok).0.registered == p.inst)
    ensures op.Kill? ==> !Local(op, v, p, e, tok).0.registered
  {
  }

  // ------------------------------------------------- the wait and its token

  lemma WaitStep(g: Sys, ev: Event, s: Service, token: Token)
    requires Inv(g) && Enabled(g, ev) && token in g.past.issued
    requires forall d :: !g.files.At(s).Waiting(token, d)
    ensures token in Next(g, ev).past.issued && forall d :: !Next(g, ev).files.At(s).Waiting(token, d)
  {
    hide Inv, Next, LineMove;
    LineMoves(g, ev, s);
    EventPast(g, ev);
    forall d ensures !Next(g, ev).files.At(s).Waiting(token, d) {
      assert !g.files.At(s).Waiting(token, d);
    }
  }

  /** A wait line that has been left never comes back, whatever is re-armed. */
  lemma {:induction false} WaitNeverReturns(states: seq<Sys>, events: seq<Event>, i: nat, k: nat, s: Service, token: Token)
    requires IsRun(states, events) && i <= k < |states| && token in states[i].past.issued
    requires forall d :: !states[i].files.At(s).Waiting(token, d)
    ensures token in states[k].past.issued && forall d :: !states[k].files.At(s).Waiting(token, d)
  {
    hide Inv, Next;
    if i < k {
      WaitNeverReturns(states, events, i, k - 1, s, token);
      Reachable(states, events, k - 1);
      WaitStep(states[k - 1], events[k - 1], s, token);
    }
  }

  /** `ev` takes the boot-expired decision for this token and sets the line to done. */
  predicate Expires(g: Sys, ev: Event, s: Service, token: Token) {
    && ev.Run? && ev.pid in g.procs && g.procs[ev.pid].todo != []
    && g.procs[ev.pid].todo[0].DecideStart? && g.procs[ev.pid].todo[0].s == s
    && g.procs[ev.pid].todo[0].ctx.BootExpired? && g.procs[ev.pid].todo[0].ctx.token == token
    && ev.e.bootAgainOk && ev.e.enabled && ev.e.bootWriteOk
  }

  /** When a boot-expired decision is taken the nested re-check succeeds: the line is
      the very wait the gate saw, and its deadline has been reached unless a failed read has
      misled a runner. */
  lemma NestedRecheckSucceeds(g: Sys, ev: Event, s: Service, token: Token)
    requires Inv(g) && Enabled(g, ev) && Expires(g, ev, s, token)
    ensures var ctx := g.procs[ev.pid].todo[0].ctx;
            && g.files.At(s).Waiting(token, ctx.deadline) && (g.now >= ctx.deadline || s in g.past.misled)
            && Next(g, ev).files.At(s).boot == Some(Done(token, ctx.deadline))
            && token in g.past.issued
  {
    hide LocksOk;
    var p := g.procs[ev.pid];
    assert ProcOk(g, p);
    assert OpOk(g, p, p.todo[0]);
    assert SvcOk(g, s);
  }

  /** Each token expires at most once, so it starts at most one instance. */
  lemma TokenExpiresOnce(states: seq<Sys>, events: seq<Event>, i: nat, k: nat, s: Service, token: Token)
    requires IsRun(states, events) && i < k < |events|
    requires Expires(states[i], events[i], s, token)
    ensures !Expires(states[k], events[k], s, token)
  {
    Reachable(states, events, i);
    NestedRecheckSucceeds(states[i], events[i], s, token);
    EventPast(states[i], events[i]);
    WaitNeverReturns(states, events, i + 1, k, s, token);
    if Expires(states[k], events[k], s, token) {
      Reachable(states, events, k);
      NestedRecheckSucceeds(states[k], events[k], s, token);
    }
  }

  /** The runner becomes a `boot_expired` command only at or past its deadline, even
      though its loop also ends when the line stops matching and it then looks again
      without any lock; only a poll that could not read the line can make it early. */
  lemma RunnerWaits(states: seq<Sys>, events: seq<Event>, i: nat, s: Service, token: Token, deadline: nat)
    requires IsRun(states, events) && i < |events|
    requires Runs(states[i], events[i], Recheck(s, token, deadline))
    requires states[i].files.At(s).Waiting(token, deadline)
    ensures states[i].now >= deadline || s in states[i].past.misled
  {
    Reachable(states, events, i);
    var p := states[i].procs[events[i].pid];
    assert ProcOk(states[i], p);
    assert OpOk(states[i], p, p.todo[0]);
  }

  /** A `boot_expired` whose gate finds another line, or cannot read it, leaves every file alone. */
  lemma StaleExpiryTouchesNothing(g: Sys, ev: Event, s: Service, token: Token, deadline: nat)
    requires Inv(g) && Enabled(g, ev) && Runs(g, ev, ExpiryGate(s, token, deadline))
    requires !ev.e.bootReadOk || !g.files.At(s).Waiting(token, deadline)
    ensures Next(g, ev).files == g.files
    ensures ev.pid in Next(g, ev).procs && Next(g, ev).procs[ev.pid].todo == [Release(s)]
  {
    var p := g.procs[ev.pid];
    assert ProcOk(g, p);
    TypedTail(g, p);
    assert g.files.With(s, g.files.At(s)) == g.files;
  }

  // ------------------------------------------------ stop, disable, cancel

  lemma CancelStep(g: Sys, ev: Event, s: Service)
    requires Inv(g) && Enabled(g, ev) && g.files.At(s).Cancelled() && !StartsManually(g, ev, s)
    requires s !in Next(g, ev).past.misled
    ensures Next(g, ev).files.At(s).Cancelled()
  {
    hide Inv, Next, RipeNow;
    LineMoves(g, ev, s);
  }

  /** A cancelled boot line stays cancelled until an enabled manual start, reload or
      restart: no timer, link event, boot or automatic start that can read it moves it. */
  lemma {:induction false} CancelSticks(states: seq<Sys>, events: seq<Event>, i: nat, k: nat, s: Service)
    requires IsRun(states, events) && i <= k < |states| && states[i].files.At(s).Cancelled()
    requires forall j :: i <= j < k ==> !StartsManually(states[j], events[j], s)
    requires s !in states[k].past.misled
    ensures states[k].files.At(s).Cancelled()
  {
    hide Inv, Next, StartsManually;
    if i < k {
      EventPast(states[k - 1], events[k - 1]);
      CancelSticks(states, events, i, k - 1, s);
      Reachable(states, events, k - 1);
      CancelStep(states[k - 1], events[k - 1], s);
    }
  }

  /** Between commands of a service, its instance implies that the boot line is manual
      or done, and its nft table implies an instance unless a write has failed. */
  lemma QuietServiceIsSettled(states: seq<Sys>, events: seq<Event>, i: nat, s: Service)
    requires IsRun(states, events) && i < |states| && ServiceLock(s) !in states[i].procd
    requires s !in states[i].past.misled
    ensures states[i].files.At(s).registered ==> states[i].files.At(s).Settled()
    ensures states[i].files.At(s).nft ==> states[i].files.At(s).registered || s in states[i].past.failed
  {
    Reachable(states, events, i);
    assert SvcOk(states[i], s);
  }

  /** After a stop or a disable the service stays down: at any later moment at which no
      command of it is under way there is no instance, unless somebody started it by hand. */
  lemma StoppedStaysDown(states: seq<Sys>, events: seq<Event>, i: nat, k: nat, s: Service)
    requires IsRun(states, events) && i <= k < |states| && states[i].files.At(s).Cancelled()
    requires forall j :: i <= j < k ==> !StartsManually(states[j], events[j], s)
    requires ServiceLock(s) !in states[k].procd && s !in states[k].past.misled
    ensures !states[k].files.At(s).registered
    ensures states[k].files.At(s).nft ==> s in states[k].past.failed
  {
    CancelSticks(states, events, i, k, s);
    QuietServiceIsSettled(states, events, k, s);
  }

  // ------------------------------------------------------------- link line

  /** How many of the events `[i, k)` record a link change of `s`. */
  ghost function Recorded(states: seq<Sys>, events: seq<Event>, i: nat, k: nat, s: Service): nat
    requires IsRun(states, events) && i <= k < |states|
  {
    if i == k then 0
    else Recorded(states, events, i, k - 1, s) + (if states[k].files.At(s).link != states[k - 1].files.At(s).link then 1 else 0)
  }

  /** A link change of `s` is recorded by a process that cannot read the line it replaces. */
  predicate Forgets(g: Sys, ev: Event, s: Service) {
    && ev.Run? && ev.pid in g.procs && g.procs[ev.pid].todo != []
    && g.procs[ev.pid].todo[0].LinkGate? && g.procs[ev.pid].todo[0].s == s
    && !ev.e.linkReadOk && g.files.At(s).Generation() > 0
  }

  /** The generation counts the recorded link changes exactly as long as whoever records one can
      read the line before it, and never passes 2^32-1. */
  lemma {:induction false} GenerationCounts(states: seq<Sys>, events: seq<Event>, i: nat, k: nat, s: Service)
    requires IsRun(states, events) && i <= k < |states| && states[i].files.At(s).Generation() <= GENERATION_MAX
    ensures states[k].files.At(s).Generation() <= GENERATION_MAX
    ensures (forall j :: i <= j < k ==> !Forgets(states[j], events[j], s)) ==>
              states[k].files.At(s).Generation() == states[i].files.At(s).Generation() + Recorded(states, events, i, k, s)
  {
    hide Next, Enabled, Forgets;
    if i < k {
      GenerationCounts(states, events, i, k - 1, s);
      LinkMoves(states[k - 1], events[k - 1], s);
    }
  }

  /** A recorded change adds one to the generation, except that one recorded blindly starts again at one. */
  lemma LinkMoves(g: Sys, ev: Event, s: Service)
    requires Enabled(g, ev)
    ensures var v, w := g.files.At(s), Next(g, ev).files.At(s);
            w.link != v.link ==>
              && w.Generation() == (if Forgets(g, ev, s) then 0 else v.Generation()) + 1
              && w.Generation() <= GENERATION_MAX
  {
    hide Next;
    EventFiles(g, ev);
    if ev.Run? {
      var p := g.procs[ev.pid];
      if !LockOp(p.todo[0]) { LocalLink(p.todo[0], g.files.At(p.todo[0].s), p.(todo := p.todo[1..]), ev.e, ev.newToken); }
    }
    hide Local;
  }

  lemma LocalLink(op: Op, v: Svc, p: Proc, e: Env, tok: Token)
    requires !LockOp(op)
    ensures var w := Local(op, v, p, e, tok).0;
            w.link != v.link ==>
              && op.LinkGate? && w.link.Some?
              && w.Generation() == SeenGeneration(v, e.linkReadOk) + 1 && w.Generation() <= GENERATION_MAX
  {
  }
}
