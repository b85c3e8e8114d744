/** What each command of the init script comes to, case by case over the boot line, the readings of
    one call and the luck of its file operations. The decision itself is not mentioned here: these
    laws say what it has to be. */
module LifecycleLaws {
  import opened Common
  import opened Lifecycle

  /** `start` by hand: an enabled service runs as soon as the line can be written and the definition
      validates, a disabled one is cancelled and taken down, and a line that cannot be written
      leaves everything but the procd instance as it was. */
  lemma ManualStartExactly(v: Svc, e: Env)
    ensures var w := StartEffect(ManualStart, v, e, true);
            && (w.registered <==> e.enabled && e.bootWriteOk && e.launchOk)
            && w.boot == (if e.bootWriteOk then Some(if e.enabled then Manual else Cancel("disabled")) else v.boot)
            && w.nft == (v.nft && !e.bootWriteOk) && w.link == v.link
    ensures StartOk(ManualStart, v, e) <==> e.bootWriteOk && (e.enabled ==> e.launchOk)
    ensures StartEffect(ManualStart, v, e, false) == Svc(v.boot, v.link, false, v.nft)
  {
  }

  /** `reload` differs from it only in what it leaves when nothing can be locked or written. */
  lemma ReloadExactly(v: Svc, e: Env)
    ensures var w := ReloadEffect(v, e);
            if !e.lockOk then w == v else
            && (w.registered <==> e.enabled && e.bootWriteOk && e.launchOk)
            && w.boot == (if e.bootWriteOk then Some(if e.enabled then Manual else Cancel("disabled")) else v.boot)
            && !w.nft && w.link == v.link
  {
  }

  /** `stop` always takes the service down; its line says so when lock and write succeed. After
      that no expiry, link-down or automatic start that reads the line brings it up again. */
  lemma StopExactly(v: Svc, e: Env, later: Env, token: Token, deadline: nat)
    ensures var w := StopEffect(v, e);
            && !w.registered && !w.nft && w.link == v.link
            && w.boot == (if e.lockOk && e.bootWriteOk then Some(Cancel("explicit-stop")) else v.boot)
            && (e.lockOk && e.bootWriteOk ==>
                  && ExpiryEffect(token, deadline, w, later) == w
                  && !LinkEffect(false, w, later).registered
                  && (later.bootReadOk ==>
                        && StartEffect(Automatic, w, later, true).Cancelled()
                        && !StartEffect(Automatic, w, later, true).registered))
  {
  }

  /** `restart` runs an enabled service whatever became of its first half. */
  lemma RestartExactly(v: Svc, e: Env, f: Env)
    ensures var w := RestartEffect(v, e, f);
            && (w.registered <==> f.lockOk && f.enabled && f.bootWriteOk && f.launchOk)
            && w.boot == (if f.lockOk && f.bootWriteOk then Some(if f.enabled then Manual else Cancel("disabled"))
                          else if e.lockOk && e.bootWriteOk then Some(Cancel("explicit-stop"))
                          else v.boot)
            && !w.nft && w.link == v.link
  {
  }

  /** An automatic start of an enabled service is let through by a manual or done line, by a wait
      that has run out, and without a line (or with one that it cannot read) once the configured
      delay is over. Then it runs if it can mark the line done or finds it settled when it looks
      again, and the definition validates. */
  lemma AutomaticStartExactly(v: Svc, e: Env)
    ensures var w := StartEffect(Automatic, v, e, true);
            var over := (delay: nat) => e.uptime.Some? && e.uptime.value >= delay;
            var passes := if !e.bootReadOk || v.boot.None? then over(e.delay) else
                          match v.boot.value
                          case Wait(_, deadline) => over(deadline)
                          case Manual => true
                          case Done(_, _) => true
                          case Cancel(_) => false;
            var settled := e.bootAgainOk && v.boot.Some? && (v.boot.value.Manual? || v.boot.value.Done?);
            && (w.registered <==> e.enabled && passes && (settled || e.bootWriteOk) && e.launchOk)
            && w.boot == (if e.enabled && passes && !settled && e.bootWriteOk then Some(Done("automatic", e.delay))
                          else if !e.enabled && e.bootWriteOk then Some(Cancel("disabled"))
                          else v.boot)
            && (w.nft <==> v.nft && !(e.enabled && passes && (settled || e.bootWriteOk)) && !(!e.enabled && e.bootWriteOk))
            && w.link == v.link
            && (StartOk(Automatic, v, e) <==>
                  if e.enabled then (passes ==> (settled || e.bootWriteOk) && e.launchOk) else e.bootWriteOk)
  {
  }

  /** A recorded link-up is an automatic start of the cleared service; a recorded link-down takes the
      service down and leaves its boot line alone. */
  lemma LinkEventExactly(up: bool, v: Svc, e: Env)
    ensures var w := LinkEffect(up, v, e);
            var before := if e.linkReadOk && v.link.Some? then v.link.value.generation else 0;
            if !(e.lockOk && e.matches && (up ==> e.present) && e.linkWriteOk && before < 0xFFFF_FFFF) then w == v else
            && w.link == Some(Link(if up then Up else Down, before + 1))
            && (up ==>
                  && w.boot == StartEffect(Automatic, v, e, true).boot
                  && w.registered == StartEffect(Automatic, v, e, true).registered)
            && (!up ==> w.boot == v.boot && !w.registered)
            && !w.nft
  {
  }

  /** `boot_expired` acts on the very wait it was called for: the wait becomes done, or cancelled if
      the service is disabled by now, and the service runs unless its link is seen to be down. */
  lemma ExpiryExactly(token: Token, deadline: Delay, v: Svc, e: Env)
    ensures var w := ExpiryEffect(token, deadline, v, e);
            if !(e.lockOk && e.bootReadOk && v.boot == Some(Wait(token, deadline))) then w == v else
            var acts := e.bootAgainOk && e.bootWriteOk;
            var runs := acts && e.enabled && !(e.linkReadOk && v.link.Some? && v.link.value.phase == Down);
            && w.boot == (if !acts then v.boot else if e.enabled then Some(Done(token, deadline)) else Some(Cancel("disabled")))
            && (w.registered <==> runs && e.launchOk)
            && w.nft == (v.nft && !runs) && w.link == v.link
  {
  }

  /** The scheduler stores the configured delay: an enabled service without a line, or with a wait,
      ends up waiting for exactly that delay and is supervised for it. The old token lives on when
      its deadline is the same. A line it cannot read is taken for none. */
  lemma ScheduleExactly(v: Svc, now: Option<nat>, newToken: Token, e: Env)
    ensures var (w, plan) := ScheduleEffect(v, now, newToken, e);
            var arming := !e.bootReadOk || v.boot.None? || v.boot.value.Wait?;
            var kept := e.bootReadOk && v.boot.Some? && v.boot.value.Wait? && v.boot.value.deadline == e.delay;
            && w == Svc(w.boot, v.link, v.registered, v.nft)
            && (now.None? || !e.lockOk ==> w.boot == v.boot && plan.None?)
            && (now.Some? && e.lockOk && e.enabled ==>
                  && (!arming ==> w.boot == v.boot && plan.None?)
                  && (kept ==> w.boot == v.boot && plan == Some((v.boot.value.token, e.delay)))
                  && (arming && !kept && e.bootWriteOk ==>
                        w.boot == Some(Wait(newToken, e.delay)) && plan == Some((newToken, e.delay)))
                  && (arming && !kept && !e.bootWriteOk ==> w.boot == v.boot && plan.None?))
            && (now.Some? && e.lockOk && !e.enabled ==>
                  && plan.None?
                  && w.boot == (if e.bootReadOk && e.bootWriteOk && v.boot.Some? && v.boot.value.Wait?
                                then Some(Cancel("disabled")) else v.boot))
  {
  }

  /** The supervised wait, run to its end with nothing in its way, brings the service up; one that
      was replaced meanwhile does not. */
  lemma ScheduledThenExpired(v: Svc, now: nat, newToken: Token, e: Env, f: Env, other: Token, deadline: Delay)
    requires ScheduleEffect(v, Some(now), newToken, e).1.Some?
    requires f.lockOk && f.bootReadOk && f.bootAgainOk && f.bootWriteOk && f.enabled && !v.LinkIsDown()
    ensures var (w, plan) := ScheduleEffect(v, Some(now), newToken, e);
            var replaced := w.(boot := Some(Wait(other, deadline)));
            && plan.value.1 == e.delay
            && ExpiryEffect(plan.value.0, e.delay, w, f) == Svc(Some(Done(plan.value.0, e.delay)), v.link, f.launchOk, false)
            && ((other, deadline) != plan.value ==> ExpiryEffect(plan.value.0, e.delay, replaced, f) == replaced)
  {
  }

  /** The scheduler's stop retires a pending wait, so that it never expires, and touches no other line. */
  lemma CancelledWaitsNeverExpire(v: Svc, ok: bool, e: Env, token: Token, deadline: nat)
    ensures var w := WaitCancelled(v, ok);
            && w == Svc(w.boot, v.link, v.registered, v.nft)
            && w.boot == (if ok && v.boot.Some? && v.boot.value.Wait? then Some(Cancel("scheduler-stop")) else v.boot)
            && (ok ==> ExpiryEffect(token, deadline, w, e) == w)
  {
  }

  /** The statuses of arming and cancelling: what a caller may rely on when they report success. */
  lemma StatusesMean(v: Svc, now: nat, newToken: Token, e: Env)
    ensures e.lockOk && e.bootReadOk && ArmOk(v, e.enabled, e.delay, e.bootReadOk, e.bootWriteOk) ==>
              var (w, plan) := ScheduleEffect(v, Some(now), newToken, e);
              && (e.enabled ==>
                    && w.boot.Some? && (plan.Some? <==> w.boot.value.Wait?)
                    && (plan.Some? ==> w.Waiting(plan.value.0, e.delay)))
              && (!e.enabled ==> w.boot.None? || !w.boot.value.Wait?)
    ensures CancelOk(v, e) && e.bootReadOk ==>
              var w := WaitCancelled(v, e.lockOk && e.bootReadOk && e.bootWriteOk);
              w.boot.None? || !w.boot.value.Wait?
    ensures LinkOk(false, v, e) <==> e.lockOk && (e.matches ==> LinkEventRecorded(false, v, e))
    ensures LinkOk(true, v, e) <==> e.lockOk && (e.matches && e.present ==>
              LinkEventRecorded(true, v, e) && StartOk(Automatic, v, e))
  {
  }
}
