/** The supervised runner that waits for one boot delay: its polling loop on its own. */
module BootRunner {
  import opened Common

  /** One turn of the loop: whether the stored line still was this wait, and the clock read after
      it (None when unreadable). */
  datatype Look = Look(matches: bool, uptime: Option<nat>)

  /** How a runner ends: it calls boot_expired, finds another line when it looks again, fails to read
      the clock, or is still waiting when its looks run out. */
  datatype End = Calls | Stale | ClockFailed | Waiting

  /** The look at which the loop stops, or their number. */
  function StopsAt(looks: seq<Look>, deadline: nat): (k: nat)
    ensures k <= |looks|
    ensures forall i | 0 <= i < k :: looks[i].matches && looks[i].uptime.Some? && looks[i].uptime.value < deadline
    ensures k < |looks| ==> !(looks[k].matches && looks[k].uptime.Some? && looks[k].uptime.value < deadline)
  {
    if looks == [] || !looks[0].matches || looks[0].uptime.None? || looks[0].uptime.value >= deadline then 0
    else 1 + StopsAt(looks[1..], deadline)
  }

  /** The script: poll, then look once more without any lock. */
  method Run(looks: seq<Look>, deadline: nat, again: bool) returns (e: End)
    ensures var k := StopsAt(looks, deadline);
      && (e == Waiting <==> k == |looks|)
      && (e == ClockFailed <==> k < |looks| && looks[k].matches && looks[k].uptime.None?)
      && (e == Calls <==> k < |looks| && !(looks[k].matches && looks[k].uptime.None?) && again)
  {
    var i := 0;
    while i < |looks| && looks[i].matches
      invariant 0 <= i <= |looks|
      invariant forall j | 0 <= j < i :: looks[j].matches && looks[j].uptime.Some? && looks[j].uptime.value < deadline
    {
      if looks[i].uptime.None? { return ClockFailed; }
      if looks[i].uptime.value >= deadline { break; }
      i := i + 1;
    }
    if i == |looks| { return Waiting; }
    e := if again then Calls else Stale;
  }
}
