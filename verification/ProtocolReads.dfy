/** What becomes of the protocol when a boot line cannot be read: exactly which failed reads make a
    process act against the line. */
module ProtocolReads {
  import opened Common
  import opened Lifecycle
  import opened Protocol
  import opened ProtocolInvariant
  import opened ProtocolPreservation
  import opened ProtocolLocal
  import opened ProtocolTheorems

  /** In this event an unreadable boot line of `s` makes a process act against it. */
  predicate MisledBy(g: Sys, ev: Event, s: Service) {
    && ev.Run? && ev.pid in g.procs && g.procs[ev.pid].todo != []
    && var op := g.procs[ev.pid].todo[0];
    && !LockOp(op) && op.s == s && Misleads(op, g.files.At(s), g.procs[ev.pid].plan, ev.e, g.now)
  }

  lemma MisledStep(g: Sys, ev: Event, s: Service)
    requires Enabled(g, ev)
    ensures s in Next(g, ev).past.misled <==> s in g.past.misled || MisledBy(g, ev, s)
  {
    hide Local, AfterRelease, Continue, Misleads, Spoiled;
  }

  /** The condition of the theorems, read off the events. */
  lemma {:induction false} MisledWhen(states: seq<Sys>, events: seq<Event>, i: nat, s: Service)
    requires IsRun(states, events) && i < |states|
    ensures s in states[i].past.misled <==> exists j :: 0 <= j < i && MisledBy(states[j], events[j], s)
  {
    hide Next, Enabled, MisledBy;
    if i > 0 {
      MisledWhen(states, events, i - 1, s);
      MisledStep(states[i - 1], events[i - 1], s);
    }
  }

  /** The runner leaves its loop although its wait is stored and still ahead. */
  predicate LeavesEarly(g: Sys, ev: Event, s: Service)
    requires Enabled(g, ev)
  {
    && ev.Run? && g.procs[ev.pid].todo[0].Poll? && g.procs[ev.pid].todo[0].s == s
    && var op := g.procs[ev.pid].todo[0];
    && g.files.At(s).Waiting(op.token, op.deadline) && g.now < op.deadline
    && ev.pid in Next(g, ev).procs && Next(g, ev).procs[ev.pid].todo == [Recheck(s, op.token, op.deadline)]
  }

  /** The condition is exact: of the events that go by a sound history, those that mislead are the
      ones that move the line as it must not move or send a runner on before its deadline. */
  lemma MisledExactly(g: Sys, ev: Event, s: Service)
    requires Inv(g) && Enabled(g, ev) && s !in g.past.misled
    ensures var v, w := g.files.At(s).boot, Next(g, ev).files.At(s).boot;
            MisledBy(g, ev, s) <==> (v != w && !LineMove(g, ev, s, v, w)) || LeavesEarly(g, ev, s)
  {
    hide ProcOk, SvcOk, LocksOk;
    MisledStep(g, ev, s);
    LineMoves(g, ev, s);
    if ev.Run? && g.procs[ev.pid].todo[0].Poll? {
      PollIs(g, ev);
    } else if MisledBy(g, ev, s) {
      EventFiles(g, ev);
      hide Next, MisledBy;
      var p := g.procs[ev.pid];
      MisledWrites(g, p, p.todo[0], ev);
    }
  }

  lemma PollIs(g: Sys, ev: Event)
    requires Enabled(g, ev) && ev.Run? && g.procs[ev.pid].todo[0].Poll?
    ensures Next(g, ev).files == g.files && ev.pid in Next(g, ev).procs
    ensures var op := g.procs[ev.pid].todo[0];
            Next(g, ev).procs[ev.pid].todo
              == if ev.e.bootReadOk && g.files.At(op.s).Waiting(op.token, op.deadline)
                 then [CheckClock(op.s, op.token, op.deadline)] else [Recheck(op.s, op.token, op.deadline)]
  {
    var op := g.procs[ev.pid].todo[0];
    assert g.files.With(op.s, g.files.At(op.s)) == g.files;
  }

  lemma MisledWrites(g: Sys, p: Proc, op: Op, ev: Event)
    requires Runs(g, ev, op) && p == g.procs[ev.pid] && Enabled(g, ev)
    requires !LockOp(op) && !op.Poll? && Misleads(op, g.files.At(op.s), p.plan, ev.e, g.now)
    ensures var v, w := g.files.At(op.s).boot, Local(op, g.files.At(op.s), p.(todo := p.todo[1..]), ev.e, ev.newToken).0.boot;
            v != w && !LineMove(g, ev, op.s, v, w)
  {
  }
}
