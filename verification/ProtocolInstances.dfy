/** Where instances come from: the decision behind every registration, and the expiry that finds the
    link down. */
module ProtocolInstances {
  import opened Common
  import opened Lifecycle
  import opened Protocol
  import opened ProtocolInvariant
  import opened ProtocolPreservation
  import opened ProtocolLocal
  import opened ProtocolTheorems

  /** `ev` runs an operation of process `pid`. */
  predicate Moves(g: Sys, ev: Event, pid: Pid) {
    ev.Run? && ev.pid == pid && pid in g.procs && g.procs[pid].todo != []
  }

  lemma ContinueOthers(m: Sys, pid: Pid, q: Proc, c: Pid)
    requires c != pid
    ensures c in Continue(m, pid, q).procs <==> c in m.procs
    ensures c in m.procs ==> Continue(m, pid, q).procs[c] == m.procs[c]
    ensures Continue(m, pid, q).next == m.next
  {
  }

  lemma ContinueOwn(m: Sys, pid: Pid, q: Proc)
    requires pid in Continue(m, pid, q).procs
    ensures Continue(m, pid, q).procs[pid] == q
  {
  }

  /** A step turns its own process into `q` and may add one to the table. */
  ghost predicate Continues(g: Sys, pid: Pid, e: Env, tok: Token, m: Sys, q: Proc)
    requires CanRun(g, pid)
  {
    && Step(g, pid, e, tok) == Continue(m, pid, q)
    && (var p := g.procs[pid];
        if LockOp(p.todo[0]) then q.inst == p.inst && q.kind == p.kind && Advances(p, q)
                                  && forall op | op in q.todo :: op in p.todo || op.Join?
        else q == Local(p.todo[0], g.files.At(p.todo[0].s), p.(todo := p.todo[1..]), e, tok).1)
    && (m.procs == g.procs
        || (g.next in m.procs && m.procs == g.procs[g.next := m.procs[g.next]]
            && Newborn(m.procs[g.next])))
  }

  /** An operation on locks or processes goes on to the next operation, or behind the release of a
      lock it could not take; a plan read from UCI only survives where nothing is skipped. */
  predicate Advances(p: Proc, q: Proc)
    requires p.todo != []
  {
    && (q.todo == p.todo[1..] || q.todo == AfterRelease(p.todo[1..], 1)
        || (q.todo != [] && q.todo[0].Join? && q.todo[1..] == p.todo[1..]))
    && (q.plan.Idle? || (q.plan == p.plan && q.todo == p.todo[1..]))
  }

  /** A process that the scheduler has just started. */
  predicate Newborn(q: Proc) {
    !q.inst && q.plan.Idle? && forall op | op in q.todo :: !op.Validate? && !op.ReadConfig?
  }

  lemma StepContinues(g: Sys, pid: Pid, e: Env, tok: Token) returns (m: Sys, q: Proc)
    requires CanRun(g, pid)
    ensures Continues(g, pid, e, tok, m, q)
  {
    hide Continue, Local, AfterRelease, Remembered;
    var p := g.procs[pid];
    var op := p.todo[0];
    SuffixOfRelease(p.todo[1..], 1);
    q := p.(todo := p.todo[1..]);
    m := g;
    match op
    case TakeProcd(lock) => m, q := g.(procd := g.procd[lock := pid]), q.(procd := true);
    case Acquire(s) =>
      if p.locked == Some(s) { q := q.(depth := p.depth + 1); }
      else if e.lockOk { m, q := g.(flock := g.flock[s := pid]), q.(locked := Some(s), depth := 1); }
      else { m, q := g.(past := g.past.(failed := g.past.failed + {s})), q.(todo := AfterRelease(q.todo, 1), plan := Idle); }
    case Release(s) =>
      if p.depth == 1 { m, q := g.(flock := g.flock - {s}), q.(locked := None, depth := 0); }
      else { q := q.(depth := if p.depth > 0 then p.depth - 1 else 0); }
    case Supervise(_) => m, q := SuperviseContinues(g, pid, e, tok);
    case Join(_) =>
    case _ =>
      var (v, r) := Local(op, g.files.At(op.s), q, e, tok);
      m, q := g.(files := g.files.With(op.s, v), past := Remembered(g, p, e, tok)), r;
  }

  lemma SuperviseContinues(g: Sys, pid: Pid, e: Env, tok: Token) returns (m: Sys, q: Proc)
    requires CanRun(g, pid) && g.procs[pid].todo[0].Supervise?
    ensures Continues(g, pid, e, tok, m, q)
  {
    hide Continue;
    var p := g.procs[pid];
    var s, plan := p.todo[0].s, p.plan;
    q := p.(todo := p.todo[1..]);
    m := g;
    if plan.Armed? {
      q := p.(todo := if plan.at >= plan.deadline then [Join(g.next)] + q.todo else q.todo, plan := Idle);
      m := Born(g, if plan.at >= plan.deadline then NewProc(Command(s), ExpiryProgram(s, plan.token, plan.deadline))
                   else NewProc(Runner, [Poll(s, plan.token, plan.deadline)]));
    }
  }

  lemma StepOthers(g: Sys, pid: Pid, e: Env, tok: Token, c: Pid)
    requires CanRun(g, pid) && c != pid
    ensures c in g.procs && c != g.next ==> c in Step(g, pid, e, tok).procs && Step(g, pid, e, tok).procs[c] == g.procs[c]
    ensures c !in g.procs && c in Step(g, pid, e, tok).procs ==> Newborn(Step(g, pid, e, tok).procs[c])
  {
    hide Step, Continue;
    var m, q := StepContinues(g, pid, e, tok);
    ContinueOthers(m, pid, q, c);
  }

  /** Nobody but a process itself changes it, unless it is a runner and is killed; and nobody is
      born with an instance in view. */
  lemma OthersStay(g: Sys, ev: Event, pid: Pid)
    requires Inv(g) && Enabled(g, ev) && !Moves(g, ev, pid)
    ensures pid in g.procs && !g.procs[pid].kind.Runner? ==> pid in Next(g, ev).procs
    ensures pid in g.procs && pid in Next(g, ev).procs ==> Next(g, ev).procs[pid] == g.procs[pid]
    ensures pid !in g.procs && pid in Next(g, ev).procs ==>
              var q := Next(g, ev).procs[pid]; !q.inst && forall op | op in q.todo :: !op.Validate?
  {
    hide SvcOk, ProcOk, Step;
    if ev.Run? {
      StepOthers(g, ev.pid, ev.e, ev.newToken, pid);
    } else if ev.Spawn? {
      ProgramsAreHarmless(ev.request);
    }
  }

  // ------------------------------------------------- the link is down at expiry

  /** `ev` takes a decision that launches an instance. */
  predicate Launches(g: Sys, ev: Event, s: Service) {
    && ev.Run? && ev.pid in g.procs && g.procs[ev.pid].todo != []
    && g.procs[ev.pid].todo[0].DecideStart? && g.procs[ev.pid].todo[0].s == s
    && Decide(g.procs[ev.pid].todo[0].ctx, g.files.At(s), ev.e).1.Launch?
  }

  /** The command is about to submit a definition without an instance. */
  ghost predicate Submitting(g: Sys, pid: Pid, s: Service) {
    && pid in g.procs && g.procs[pid].kind == Command(s) && g.procs[pid].procd && !g.procs[pid].inst
    && SubmitNext(g.procs[pid].todo, s)
  }

  /** A decision about an expired wait launches exactly when it does not see the link down. */
  lemma ExpiryLooksAtLink(g: Sys, ev: Event, s: Service, token: Token)
    requires Inv(g) && Enabled(g, ev) && Expires(g, ev, s, token)
    ensures Launches(g, ev, s) <==> !(ev.e.linkReadOk && g.files.At(s).LinkIsDown())
    ensures !Launches(g, ev, s) ==>
              Submitting(Next(g, ev), ev.pid, s) && Next(g, ev).files.At(s).registered == g.files.At(s).registered
  {
    hide LocksOk, SvcOk, ProcOk, Remembered;
    var p := g.procs[ev.pid];
    assert ProcOk(g, p);
    TypedTail(g, p);
    ProcParts(g, p);
    assert OpOk(g, p, p.todo[0]);
    BeforeDecision(g, p);
    assert DecisionBody(s, Quiet) + p.todo[1..] == p.todo[1..];
  }

  /** Until it submits, a command on this way stays on it, and no instance appears meanwhile. */
  lemma SubmittingStep(g: Sys, ev: Event, pid: Pid, s: Service)
    requires Inv(g) && Enabled(g, ev) && Submitting(g, pid, s)
    ensures Moves(g, ev, pid) && Runs(g, ev, Submit(s)) ==> !Next(g, ev).files.At(s).registered
    ensures !(Moves(g, ev, pid) && Runs(g, ev, Submit(s))) ==>
              Submitting(Next(g, ev), pid, s) && (Next(g, ev).files.At(s).registered ==> g.files.At(s).registered)
  {
    hide Next, SvcOk, LocksOk, ProcOk;
    EventFiles(g, ev);
    if Moves(g, ev, pid) {
      SubmittingMoves(g, ev, pid, s);
    } else {
      OthersStay(g, ev, pid);
      if Next(g, ev).files.At(s).registered && !g.files.At(s).registered {
        RegistrationIsSettled(g, ev, s);
        assert ProcOk(g, g.procs[ev.pid]);
        TypedTail(g, g.procs[ev.pid]);
        OnlyWorker(g, pid, s);
        OnlyWorker(g, ev.pid, s);
      }
    }
  }

  lemma SubmittingMoves(g: Sys, ev: Event, pid: Pid, s: Service)
    requires Inv(g) && Enabled(g, ev) && Submitting(g, pid, s) && Moves(g, ev, pid)
    ensures Runs(g, ev, Submit(s)) ==> !Next(g, ev).files.At(s).registered
    ensures !Runs(g, ev, Submit(s)) ==> Submitting(Next(g, ev), pid, s) && Next(g, ev).files == g.files
  {
    hide Inv, Remembered, AfterRelease;
    var p := g.procs[pid];
    if !Runs(g, ev, Submit(s)) { assert p.todo[0].Release? && SubmitNext(p.todo[1..], s); }
  }

  /** No event of `[i, k)` submits for process `pid`. */
  predicate NoSubmit(states: seq<Sys>, events: seq<Event>, i: nat, k: nat, pid: Pid, s: Service)
    requires |states| > |events| >= k
  {
    forall j | i <= j < k :: !(Moves(states[j], events[j], pid) && Runs(states[j], events[j], Submit(s)))
  }

  lemma {:induction false} StaysSubmitting(states: seq<Sys>, events: seq<Event>, i: nat, k: nat, pid: Pid, s: Service)
    requires IsRun(states, events) && i <= k < |states| && Submitting(states[i], pid, s)
    requires NoSubmit(states, events, i, k, pid, s)
    ensures Submitting(states[k], pid, s) && (states[k].files.At(s).registered ==> states[i].files.At(s).registered)
  {
    hide Inv, Next, Enabled, Submitting, Moves, Runs;
    if i < k {
      StaysSubmitting(states, events, i, k - 1, pid, s);
      Reachable(states, events, k - 1);
      SubmittingStep(states[k - 1], events[k - 1], pid, s);
    }
  }

  /** An expiry that sees its link down never leads to an instance, in any interleaving: until the
      command submits none appears, and when it has submitted there is none. */
  lemma DownLinkStartsNothing(states: seq<Sys>, events: seq<Event>, i: nat, k: nat, s: Service, token: Token)
    requires IsRun(states, events) && i < k < |events| && Expires(states[i], events[i], s, token)
    requires states[i].files.At(s).LinkIsDown() && events[i].e.linkReadOk
    requires NoSubmit(states, events, i + 1, k, events[i].pid, s)
    ensures states[i + 1].files.At(s).boot.Some? && states[i + 1].files.At(s).boot.value.Done?
    ensures states[k].files.At(s).registered ==> states[i].files.At(s).registered
    ensures Moves(states[k], events[k], events[i].pid) && Runs(states[k], events[k], Submit(s)) ==>
              !states[k + 1].files.At(s).registered
  {
    hide Inv, Next, Enabled, Submitting;
    Reachable(states, events, i);
    NestedRecheckSucceeds(states[i], events[i], s, token);
    ExpiryLooksAtLink(states[i], events[i], s, token);
    StaysSubmitting(states, events, i + 1, k, events[i].pid, s);
    Reachable(states, events, k);
    SubmittingStep(states[k], events[k], events[i].pid, s);
  }

  // --------------------------------------------------- the decision behind it

  /** The process has, or is on the way to, a validated definition. */
  predicate Launching(p: Proc) {
    p.inst || exists op :: op in p.todo && op.Validate?
  }

  /** `ev` takes a decision or submits. */
  predicate DecidesOrSubmits(g: Sys, ev: Event, pid: Pid) {
    Moves(g, ev, pid) && (g.procs[pid].todo[0].DecideStart? || g.procs[pid].todo[0].Submit?)
  }

  /** Event `j` is the launching decision that the process of event `k` is working off. */
  ghost predicate Origin(states: seq<Sys>, events: seq<Event>, j: nat, k: nat, pid: Pid, s: Service)
    requires |states| > |events|
  {
    && j < k <= |events| && Launches(states[j], events[j], s) && events[j].pid == pid
    && forall m | j < m < k :: !DecidesOrSubmits(states[m], events[m], pid)
  }

  lemma LocalLaunching(op: Op, v: Svc, p: Proc, e: Env, tok: Token)
    requires !LockOp(op)
    ensures var q := Local(op, v, p, e, tok).1;
      && (Launching(q) ==> Launching(p) || op.Validate? || (op.DecideStart? && Decide(op.ctx, v, e).1.Launch?))
      && (op.Submit? ==> !q.inst && q.todo == p.todo)
      && (q.kind == p.kind || op.Recheck?)
  {
  }

  lemma LaunchingMoves(g: Sys, ev: Event, pid: Pid, s: Service)
    requires Inv(g) && Enabled(g, ev) && Moves(g, ev, pid) && pid in Next(g, ev).procs
    requires Next(g, ev).procs[pid].kind == Command(s) && Launching(Next(g, ev).procs[pid])
    ensures g.procs[pid].kind == Command(s)
    ensures DecidesOrSubmits(g, ev, pid) ==> Launches(g, ev, s)
    ensures !DecidesOrSubmits(g, ev, pid) ==> Launching(g.procs[pid])
  {
    hide SvcOk, ProcOk, LocksOk, Continue, Local, Step;
    var p := g.procs[pid];
    assert ProcOk(g, p);
    TypedTail(g, p);
    ProcParts(g, p);
    var m, q := StepContinues(g, pid, ev.e, ev.newToken);
    ContinueOwn(m, pid, q);
    if !LockOp(p.todo[0]) {
      LocalLaunching(p.todo[0], g.files.At(p.todo[0].s), p.(todo := p.todo[1..]), ev.e, ev.newToken);
      if p.todo[0].DecideStart? { BeforeDecision(g, p); }
    }
  }

  /** A process launches only if it just decided to, or did so before. */
  lemma LaunchingStep(g: Sys, ev: Event, pid: Pid, s: Service)
    requires Inv(g) && Enabled(g, ev) && pid in Next(g, ev).procs
    requires Next(g, ev).procs[pid].kind == Command(s) && Launching(Next(g, ev).procs[pid])
    ensures pid in g.procs && g.procs[pid].kind == Command(s)
    ensures DecidesOrSubmits(g, ev, pid) ==> Launches(g, ev, s)
    ensures !DecidesOrSubmits(g, ev, pid) ==> Launching(g.procs[pid])
  {
    hide Inv, Next, Enabled, Launches;
    if Moves(g, ev, pid) { LaunchingMoves(g, ev, pid, s); } else { OthersStay(g, ev, pid); }
  }

  lemma {:induction false} FindOrigin(states: seq<Sys>, events: seq<Event>, k: nat, pid: Pid, s: Service) returns (j: nat)
    requires IsRun(states, events) && k < |states| && pid in states[k].procs
    requires states[k].procs[pid].kind == Command(s) && Launching(states[k].procs[pid])
    ensures Origin(states, events, j, k, pid, s)
  {
    hide Inv, Next, Enabled, Launches, Launching, DecidesOrSubmits;
    assert k > 0;
    Reachable(states, events, k - 1);
    LaunchingStep(states[k - 1], events[k - 1], pid, s);
    if DecidesOrSubmits(states[k - 1], events[k - 1], pid) {
      j := k - 1;
      DecidersMove(states[j], events[j], pid);
    } else {
      j := FindOrigin(states, events, k - 1, pid, s);
    }
  }

  lemma DecidersMove(g: Sys, ev: Event, pid: Pid)
    requires DecidesOrSubmits(g, ev, pid)
    ensures ev.Run? && ev.pid == pid
  {
  }

  /** An instance of `s` appears. */
  predicate Registers(states: seq<Sys>, k: nat, s: Service)
    requires k < |states| - 1
  {
    !states[k].files.At(s).registered && states[k + 1].files.At(s).registered
  }

  /** Behind every instance stands a decision of the same process to launch it, with nothing decided or
      submitted in between: an enabled manual start, an automatic one, or the expiry of a token. */
  lemma RegistrationHasOrigin(states: seq<Sys>, events: seq<Event>, k: nat, s: Service) returns (j: nat)
    requires IsRun(states, events) && k < |events| && Registers(states, k, s)
    ensures events[k].Run? && Origin(states, events, j, k, events[k].pid, s) && Runs(states[k], events[k], Submit(s))
    ensures StartsManually(states[j], events[j], s) || Runs(states[j], events[j], DecideStart(s, Automatic))
         || exists token :: Expires(states[j], events[j], s, token)
  {
    hide Inv, Next, Enabled, Origin, Launches, Launching;
    Reachable(states, events, k);
    var g, ev := states[k], events[k];
    RegistrationIsSettled(g, ev, s);
    SubmitterLaunches(g, ev, s);
    j := FindOrigin(states, events, k, ev.pid, s);
    OriginFacts(states, events, j, k, ev.pid, s);
    LaunchKinds(states[j], events[j], s);
  }

  lemma SubmitterLaunches(g: Sys, ev: Event, s: Service)
    requires Inv(g) && Enabled(g, ev) && Runs(g, ev, Submit(s)) && Next(g, ev).files.At(s).registered
    ensures g.procs[ev.pid].kind == Command(s) && Launching(g.procs[ev.pid])
  {
    hide SvcOk, LocksOk, Next;
    EventFiles(g, ev);
    assert ProcOk(g, g.procs[ev.pid]);
    TypedTail(g, g.procs[ev.pid]);
  }

  lemma OriginFacts(states: seq<Sys>, events: seq<Event>, j: nat, k: nat, pid: Pid, s: Service)
    requires |states| > |events| && Origin(states, events, j, k, pid, s)
    ensures j < k <= |events| && Launches(states[j], events[j], s)
  {
  }

  lemma LaunchKinds(g: Sys, ev: Event, s: Service)
    requires Launches(g, ev, s)
    ensures StartsManually(g, ev, s) || Runs(g, ev, DecideStart(s, Automatic)) || exists token :: Expires(g, ev, s, token)
  {
    var ctx := g.procs[ev.pid].todo[0].ctx;
    if ctx.BootExpired? { assert Expires(g, ev, s, ctx.token); }
  }

  /** Two instances never go back to the same decision. */
  lemma OriginsDiffer(states: seq<Sys>, events: seq<Event>, a: nat, i: nat, b: nat, k: nat, s: Service)
    requires IsRun(states, events) && i < k < |events|
    requires events[i].Run? && Origin(states, events, a, i, events[i].pid, s) && Runs(states[i], events[i], Submit(s))
    requires events[k].Run? && Origin(states, events, b, k, events[k].pid, s)
    ensures a != b
  {
    if a == b { assert DecidesOrSubmits(states[i], events[i], events[k].pid); }
  }

  /** Each token starts at most one instance: of two that appear in a run, at most one goes back to an
      expiry of the token. */
  lemma TokenStartsOnce(states: seq<Sys>, events: seq<Event>, i: nat, k: nat, s: Service, token: Token) returns (a: nat, b: nat)
    requires IsRun(states, events) && i < k < |events| && Registers(states, i, s) && Registers(states, k, s)
    ensures events[i].Run? && Origin(states, events, a, i, events[i].pid, s)
    ensures events[k].Run? && Origin(states, events, b, k, events[k].pid, s)
    ensures !(Expires(states[a], events[a], s, token) && Expires(states[b], events[b], s, token))
  {
    hide Next, Origin, Expires;
    a := RegistrationHasOrigin(states, events, i, s);
    b := RegistrationHasOrigin(states, events, k, s);
    OriginsDiffer(states, events, a, i, b, k, s);
    OriginFacts(states, events, a, i, events[i].pid, s);
    OriginFacts(states, events, b, k, events[k].pid, s);
    if Expires(states[a], events[a], s, token) {
      if a < b { TokenExpiresOnce(states, events, a, b, s, token); }
      else if Expires(states[b], events[b], s, token) { TokenExpiresOnce(states, events, b, a, s, token); }
    }
  }
}
