/** What becomes of a decision to launch: whatever runs in between, the process that took it submits
    an instance exactly when its definition validates. */
module ProtocolLaunch {
  import opened Common
  import opened Lifecycle
  import opened Protocol
  import opened ProtocolInvariant
  import opened ProtocolPreservation
  import opened ProtocolLocal
  import opened ProtocolTheorems
  import opened ProtocolInstances

  /** Clearing the service, then the validation, then the submission are still to come. */
  predicate Ahead(todo: seq<Op>, s: Service) {
    && todo != []
    && match todo[0]
       case Kill(o) => o == s && Ahead(todo[1..], s)
       case Clean(o) => o == s && Ahead(todo[1..], s)
       case Validate(o) => o == s
       case _ => false
  }

  /** Event `v` is the validation of process `pid`. */
  predicate Validates(g: Sys, ev: Event, pid: Pid, s: Service) {
    Moves(g, ev, pid) && Runs(g, ev, Validate(s))
  }

  /** Between its decision and its submission the process has either still to validate, or holds the
      outcome of its validation. */
  ghost predicate CarryingOut(g: Sys, pid: Pid, s: Service, outcome: Option<bool>) {
    && pid in g.procs && g.procs[pid].kind == Command(s)
    && match outcome
       case None => Ahead(g.procs[pid].todo, s)
       case Some(ok) => SubmitNext(g.procs[pid].todo, s) && g.procs[pid].inst == ok
  }

  lemma OwnStep(g: Sys, pid: Pid, e: Env, tok: Token, s: Service, outcome: Option<bool>)
    requires CanRun(g, pid) && ProcOk(g, g.procs[pid]) && CarryingOut(g, pid, s, outcome)
    requires g.procs[pid].todo[0] != Submit(s)
    ensures CarryingOut(Step(g, pid, e, tok), pid, s, if g.procs[pid].todo[0] == Validate(s) then Some(e.launchOk) else outcome)
  {
    hide Remembered, AfterRelease;
    var p := g.procs[pid];
    TypedTail(g, p);
    hide ProcOk;
    if outcome.None? && p.todo[0] != Validate(s) {
      assert Ahead(p.todo[1..], s);
    } else {
      assert SubmitNext(p.todo[1..], s);
    }
  }

  lemma LaunchBegins(g: Sys, ev: Event, s: Service)
    requires Inv(g) && Enabled(g, ev) && Launches(g, ev, s)
    ensures CarryingOut(Next(g, ev), ev.pid, s, None)
  {
    hide LocksOk, SvcOk, ProcOk, Remembered;
    var p := g.procs[ev.pid];
    assert ProcOk(g, p);
    TypedTail(g, p);
    ProcParts(g, p);
    BeforeDecision(g, p);
    var t := DecisionBody(s, Launch) + p.todo[1..];
    assert t == [Kill(s), Clean(s), Validate(s)] + p.todo[1..];
    assert t[1..][1..][0] == Validate(s) && Ahead(t[1..][1..], s);
    assert Ahead(t[1..], s) && Ahead(t, s);
  }

  lemma CarryingStep(g: Sys, ev: Event, pid: Pid, s: Service, outcome: Option<bool>)
    requires Inv(g) && Enabled(g, ev) && CarryingOut(g, pid, s, outcome)
    requires !(Moves(g, ev, pid) && Runs(g, ev, Submit(s)))
    ensures CarryingOut(Next(g, ev), pid, s, if Validates(g, ev, pid, s) then Some(ev.e.launchOk) else outcome)
  {
    hide SvcOk, LocksOk, ProcOk, Step;
    assert ProcOk(g, g.procs[pid]);
    if Moves(g, ev, pid) { OwnStep(g, pid, ev.e, ev.newToken, s, outcome); } else { OthersStay(g, ev, pid); }
  }

  /** The validation of `[i, m)`, if there has been one. */
  lemma {:induction false} CarriesOn(states: seq<Sys>, events: seq<Event>, i: nat, m: nat, s: Service) returns (v: Option<nat>)
    requires IsRun(states, events) && i < m < |states| && Launches(states[i], events[i], s)
    requires NoSubmit(states, events, i + 1, m, events[i].pid, s)
    ensures v.Some? ==> i < v.value < m && events[v.value].Run? && Validates(states[v.value], events[v.value], events[i].pid, s)
    ensures CarryingOut(states[m], events[i].pid, s, if v.None? then None else Some(events[v.value].e.launchOk))
  {
    hide Inv, Next, Enabled, Launches, CarryingOut, Moves, Runs;
    LaunchesRuns(states[i], events[i], s);
    if m == i + 1 {
      v := None;
      Reachable(states, events, i);
      LaunchBegins(states[i], events[i], s);
    } else {
      v := CarriesOn(states, events, i, m - 1, s);
      Reachable(states, events, m - 1);
      var outcome := if v.None? then None else Some(events[v.value].e.launchOk);
      CarryingStep(states[m - 1], events[m - 1], events[i].pid, s, outcome);
      if Validates(states[m - 1], events[m - 1], events[i].pid, s) {
        v := Some(m - 1);
        ValidatesRuns(states[m - 1], events[m - 1], events[i].pid, s);
      }
    }
  }

  lemma LaunchesRuns(g: Sys, ev: Event, s: Service)
    requires Launches(g, ev, s)
    ensures ev.Run?
  {
  }

  lemma ValidatesRuns(g: Sys, ev: Event, pid: Pid, s: Service)
    requires Validates(g, ev, pid, s)
    ensures ev.Run?
  {
  }

  /** A decision to launch is carried out: when its process next submits, the service has an instance
      exactly if the definition validated in between, whatever other processes did meanwhile. */
  lemma LaunchIsCarriedOut(states: seq<Sys>, events: seq<Event>, i: nat, k: nat, s: Service) returns (v: nat)
    requires IsRun(states, events) && i < k < |events| && Launches(states[i], events[i], s)
    requires NoSubmit(states, events, i + 1, k, events[i].pid, s)
    requires Moves(states[k], events[k], events[i].pid) && Runs(states[k], events[k], Submit(s))
    ensures i < v < k && events[v].Run? && Validates(states[v], events[v], events[i].pid, s)
    ensures states[k + 1].files.At(s).registered <==> events[v].e.launchOk
  {
    hide Inv, Next, Enabled;
    var found := CarriesOn(states, events, i, k, s);
    v := found.value;
    SubmitsWhatItHolds(states[k], events[k], s);
  }

  lemma SubmitsWhatItHolds(g: Sys, ev: Event, s: Service)
    requires Enabled(g, ev) && Runs(g, ev, Submit(s))
    ensures Next(g, ev).files.At(s).registered == g.procs[ev.pid].inst
  {
    hide Next;
    EventFiles(g, ev);
  }

  /** A manual start, reload or restart of an enabled service launches, and nothing that other
      processes do can keep it from coming up once its definition validates. */
  lemma ManualStartIsCarriedOut(states: seq<Sys>, events: seq<Event>, i: nat, k: nat, s: Service) returns (v: nat)
    requires IsRun(states, events) && i < k < |events| && StartsManually(states[i], events[i], s)
    requires NoSubmit(states, events, i + 1, k, events[i].pid, s)
    requires Moves(states[k], events[k], events[i].pid) && Runs(states[k], events[k], Submit(s))
    ensures states[i + 1].files.At(s).boot == Some(Manual)
    ensures i < v < k && events[v].Run? && Validates(states[v], events[v], events[i].pid, s)
    ensures states[k + 1].files.At(s).registered <==> events[v].e.launchOk
  {
    hide Inv, Next, Enabled;
    ManualLaunches(states[i], events[i], s);
    v := LaunchIsCarriedOut(states, events, i, k, s);
  }

  lemma ManualLaunches(g: Sys, ev: Event, s: Service)
    requires Enabled(g, ev) && StartsManually(g, ev, s)
    ensures Launches(g, ev, s) && Next(g, ev).files.At(s).boot == Some(Manual)
  {
    hide Next;
    EventFiles(g, ev);
  }
}
