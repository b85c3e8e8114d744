# Verified model of the TaoistFuchen services and of FakeSIP

A Dafny model of the parts of this repository that decide when the two packet services run and what
FakeSIP does with packets. `dafny verify dfyconfig.toml` checks all of it. Nothing of the original is
executed.

## What is modelled

**When a service runs.** `Lifecycle` holds one service's boot line (`phase token deadline`), link line,
procd instance and nft table. The class `Shell` is the init script with its re-entrant lifecycle lock;
each command is proved to have exactly the effect of a function, and `LifecycleLaws` spells out what each
of them comes to, case by case, without mentioning how it is decided. FakeSIP and FakeHTTP are one model
with two names. `Protocol` makes processes of all commands, of the boot scheduler and of its polling runners:
a process is the list of operations it still has to perform, and any two processes interleave between
operations. UCI values, the clock reading and the luck of each file operation arrive with the event that
uses them, so they may change between any two reads. `ProtocolInvariant`, `ProtocolPreservation` and
`ProtocolLocal` give the global invariant and its preservation, `ProtocolTheorems` what follows for every
run, `ProtocolInstances` where instances come from, `ProtocolLaunch` that a decision to launch is carried
out, `ProtocolDelay` that stored waits and automatic instances go back to configured delays,
`ProtocolLocks` who holds and waits for which lock, `ProtocolSolo` that a command alone does what
`Lifecycle` says. `BootRunner` is the runner's loop.

Any read of a boot or link line may fail, and the scripts take an unreadable line for none. Most such
failures are harmless; `Protocol.Misleads` lists the ones that are not, `ProtocolReads` proves the list
exact, and the theorems that a misled process can spoil ask that none has been misled about the service
so far (`past.misled`). The invariant, the lock results and the once-only results hold in every run.

**Which packets are queued.** `Firewall` is a small rule language (ordered rules, jump, return, drop,
queue) with its evaluator, both compilers and a closed form of the policy; `FirewallMeaning` proves both
compilers equal to it. `ChainTable` is the mangle table under -N, -F, -X, -A, -I and -D with their failure
conditions; `ChainCleanup` and `ChainRuns` prove that cleanup undoes any prefix of setup. `FirewallRules`,
`NftRules` and `BackEnd` are the setup and cleanup procedures editing these tables in place, up to the
part of `main` that installs and removes the rules. Any of their commands may fail to start or lose its
status.

**What happens to a queued packet.** `PayloadRing` is the circular heap list of decoy payloads, `PacketCodec`
the in-place packet writer and the parser (RFC 791 section 3.1, RFC 8200 section 3, RFC 768), `RawSend` the
decision and the decoys, `NfQueue` the callback and the receive loop, `SrcInfo` the ring of seen peers with
its unsigned index arithmetic, `Invite` the generated SIP message.

**From configuration to program.** `Numerals`, `Text`, `PortMap` and `SipUri` are the validators and the C
parsers they feed, `Options` the option loop with its growing arrays and cross-checks, `FakeSipConfig` the
shell's validation and command line, `OptionLaws` what the options come to and how the two validations
relate, `EndToEnd` what the layers guarantee together.

## Where the code differs from what one expects

- The peer ring searches by `(end - i - 1) % 500` in unsigned arithmetic, and 2^64 mod 500 is 116, so
  after the ring has filled a search can miss a live peer or meet an older entry first.
  `SrcInfo.MissesLivePeer` is such a history; `SrcInfo.FindsNewestIffInReach` and `SrcInfo.RealPairExactly`
  say exactly when the newest match is found.
- Nothing calls `fs_srcinfo_put`, so outgoing packets are always taken to be 64 hops from their peer
  (`RawSend.OutgoingEstimateIs64`).
- A runner whose poll cannot read the boot line once leaves its loop, and boot_expired does not look at the
  clock: `ProtocolEarlyStart.EarlyStart` is a run in which the service starts 40 seconds early. In the same
  way an automatic start that cannot read a cancelled line starts the service (`Lifecycle.CancelHolds`).
  `ProtocolReads.MisledExactly` says which failed reads do harm; without them the theorems hold.
- A link change recorded by a process that cannot read the link line restarts the generation at one
  (`ProtocolTheorems.GenerationCounts`), and an expiry that cannot read it starts the service although the
  link is down (`ProtocolInstances.ExpiryLooksAtLink`).
- A custom payload file of exactly 1200 bytes is refused although the message names 1200 as the maximum: end
  of file is only seen when a read comes back short (`PayloadRing.FullFileIsRefused`); accepted are exactly
  the files of fewer bytes (`PayloadRing.MakeCustom`).
- `-p ,` succeeds without adding a port and leaves the filter unset; so do exactly the specifications of commas
  only (`PortMap.AcceptedWithoutPorts`).
- The C parsers alone read `010` as eight (`Numerals.OctalIsDifferent`); the shell never lets it through. They
  read in decimal exactly the canonical numbers and octal digits that are zero up to the last
  (`Numerals.ReadsDecimalExactly`).
- An nft setup that runs although the old table could not be deleted succeeds with its rules behind the old
  ones (`NftRules.Ruleset.Setup`); an iptables setup then fails instead (`ChainRuns.PermittedPrefix`).
- `-0` sets the field named `inbound`, which governs outgoing packets, and `-1` the other way round; the
  script compensates (`EndToEnd.DirectionIsKept`).

## Assumptions

- One boot: state files are written only by this code, a rename is atomic, the clock never goes back, the
  `service.now.pid` token of a new wait was never used before, and process numbers are not reused.
- rc.common's procd lock serialises the commands of one init script, is re-entrant, is given back when the
  process ends, and is taken anew by a command that the scheduler starts; a submitted definition without an
  instance removes the running one; an explicit stop runs `stop_service`, then the kill, then
  `service_stopped`.
- iptables commands are atomic and the kernel keeps no jump to a missing chain. Where a result asks for a
  recoverable table (`ChainCleanup.Leftover`), nobody else edits or calls the program's own three chains and
  the table holds at most what interrupted runs of the program leave in it.
- nft's `time-exceeded` and iptables' types 11 (ICMP) and 3 (ICMPv6) are the same packets.

## Model

| member | source | states |
|---|---|---|
| Lifecycle.Shell.LockAcquire | luci-app-taoistfuchen/root/usr/share/taoistfuchen/service-common.sh:341-361 | the lifecycle lock is re-entrant for its own service, refuses the other service, and the flock is held exactly while the depth is positive |
| Lifecycle.Shell.LockRelease | luci-app-taoistfuchen/root/usr/share/taoistfuchen/service-common.sh:363-373 | only the holder releases; the flock is given back exactly when the depth returns to zero |
| Lifecycle.Shell.LinkStateSet | luci-app-taoistfuchen/root/usr/share/taoistfuchen/service-common.sh:395-417 | a link change is recorded only under the lock and counts on from the generation that can be read (from zero when none can), never beyond 2^32-1 |
| Lifecycle.Shell.StartServiceLocked | luci-app-taoistfuchen/root/etc/init.d/fakesip:150-267 | the context machine of start as written has exactly the effect and status that LifecycleLaws spells out: every context, disabled service, deferral, unreadable line and failed state write |
| Lifecycle.Shell.Start | luci-app-taoistfuchen/root/etc/init.d/fakesip:269-276 | start with the procd submission that follows it: the definition replaces the instance, a manual start that succeeds leaves one exactly if the service is enabled, and the lock is left as it was found on every path |
| Lifecycle.Shell.LinkEvent | luci-app-taoistfuchen/root/etc/init.d/fakesip:278-319 | link_down and link_up: a device that does not match changes nothing; a recorded change clears the service and restarts it in the right context; the lock is balanced on every path |
| Lifecycle.Shell.BootExpiredCommand | luci-app-taoistfuchen/root/etc/init.d/fakesip:321-338 | boot_expired acts only on the very wait it was called for, and on nothing when it cannot read the line |
| Lifecycle.Shell.ReloadService | luci-app-taoistfuchen/root/etc/init.d/fakesip:340-350 | reload clears and restarts by hand under one re-entrant lock |
| Lifecycle.Shell.Stop | luci-app-taoistfuchen/root/etc/init.d/fakesip:352-371 | stop writes cancel, then the instance and the nft table go, even when the line cannot be written |
| Lifecycle.Shell.ScheduleBootService | luci-app-taoistfuchen/root/etc/init.d/taoistfuchen-boot-delay:17-64 | arming as written: what is supervised is the stored wait with the configured delay as its deadline, entered only where no line is seen or a wait of another deadline; a disabled service's wait is cancelled, every other line that can be read is left alone |
| Lifecycle.Shell.CancelBootWaits | luci-app-taoistfuchen/root/etc/init.d/taoistfuchen-boot-delay:91-103 | scheduler stop cancels both services' pending waits that can be read, one lock at a time, going on after a failure |
| LifecycleLaws.ManualStartExactly | luci-app-taoistfuchen/root/etc/init.d/fakesip:169-178 | a manual start registers an instance exactly if the service is enabled, the line can be written and the definition validates; the line then says manual, or cancel for a disabled service, and nothing but the instance changes otherwise |
| LifecycleLaws.ReloadExactly | luci-app-taoistfuchen/root/etc/init.d/fakesip:340-350 | the same for a reload, which takes the service down first and does nothing without the lock |
| LifecycleLaws.RestartExactly | luci-app-taoistfuchen/root/etc/init.d/fakesip:352-371 | a restart runs the service exactly if its second half can, whatever became of the first |
| LifecycleLaws.StopExactly | luci-app-taoistfuchen/root/etc/init.d/fakesip:352-371 | a stop always leaves no instance and no table; its line says cancel exactly when lock and write succeed, and then no expiry, link-down or automatic start that reads it brings the service up |
| LifecycleLaws.AutomaticStartExactly | luci-app-taoistfuchen/root/etc/init.d/fakesip:192-211 | for every boot line, delay and clock, exactly when an automatic start runs the service, which line and table it leaves and what status it returns |
| LifecycleLaws.LinkEventExactly | luci-app-taoistfuchen/root/etc/init.d/fakesip:278-319 | a recorded link-up does what an automatic start does, a recorded link-down takes the service down and keeps its boot line, any other event changes nothing |
| LifecycleLaws.ExpiryExactly | luci-app-taoistfuchen/root/etc/init.d/fakesip:179-191 | what boot_expired leaves in every case: only the very wait it was called for turns into done or cancel, and the service runs unless its link is seen down |
| LifecycleLaws.ScheduleExactly | luci-app-taoistfuchen/root/etc/init.d/taoistfuchen-boot-delay:17-64 | for every line, reading and luck, the line and the supervised wait the scheduler leaves: its deadline is the configured delay, and the old token survives exactly with an equal deadline |
| LifecycleLaws.ScheduledThenExpired | luci-app-taoistfuchen/root/etc/init.d/taoistfuchen-boot-delay:66-69 | the supervised wait, expired with nothing in its way, brings the service up and marks it done; a wait that was replaced is left alone |
| LifecycleLaws.CancelledWaitsNeverExpire | luci-app-taoistfuchen/root/etc/init.d/taoistfuchen-boot-delay:91-103 | the scheduler's stop cancels a pending wait and only that, and afterwards no expiry changes anything |
| LifecycleLaws.StatusesMean | luci-app-taoistfuchen/root/etc/init.d/taoistfuchen-boot-delay:17-64 | what success of arming, of cancelling and of a link event guarantees about the lines |
| Lifecycle.StaleExpiryIsNoOp | luci-app-taoistfuchen/root/etc/init.d/fakesip:321-338 | exactly when boot_expired leaves every file alone: no lock, another or unreadable line at the gate, or nothing running and the line unreadable or unwritable at the decision |
| Lifecycle.ExpiryStarts | luci-app-taoistfuchen/root/etc/init.d/fakesip:179-191 | exactly when boot_expired brings up a service that is down |
| Lifecycle.CancelHolds | luci-app-taoistfuchen/root/etc/init.d/fakesip:352-363 | after a cancel expiry changes nothing and link-down leaves the boot line; link-up and automatic starts move the line, and start the service, exactly when they cannot read it and the configured delay is over |
| Lifecycle.ExpiryAndLinkUpCommute | luci-app-taoistfuchen/root/etc/init.d/fakesip:298-338 | timer and link-up in either order, each with its own UCI values and clock: the same link line, a done line, and a service that runs as soon as the last start let through launches |
| Lifecycle.LinkLineLaws | luci-app-taoistfuchen/root/etc/init.d/fakesip:278-319 | link_down keeps a pending wait; a link event leaves everything as it was unless lock, device, write and bound let it be recorded, and then the link line has the event's phase and one more than the generation it read |
| Lifecycle.ExpiryWhileDown | luci-app-taoistfuchen/root/etc/init.d/fakesip:189-190 | whatever else fails, an expiry that sees the link down starts nothing; if it retires the wait, the next recorded link-up passes the boot gate |
| Lifecycle.Shell.Restart | luci-app-taoistfuchen/root/etc/init.d/fakesip:352-354 | restart is stop followed by a manual start in one process, each half with its own luck |
| BootRunner.Run | luci-app-taoistfuchen/root/usr/share/taoistfuchen/boot-delay-runner.sh:17-24 | the polling loop ends at the first look that does not match or is due, and calls boot_expired only if the line still matches when looked at again |
| ProtocolSolo.SoloIsEffect | luci-app-taoistfuchen/root/etc/init.d/fakesip:269-363 | a command of the concurrent model, run alone, does exactly what the init script's command does |
| ProtocolSolo.SoloExpiry | luci-app-taoistfuchen/root/etc/init.d/fakesip:321-338 | the same for boot_expired as runners and the scheduler start it |
| ProtocolSolo.SoloSchedule | luci-app-taoistfuchen/root/etc/init.d/taoistfuchen-boot-delay:17-64 | one service of the scheduler's start, run alone, leaves the files and the wait to supervise that the scheduler function leaves |
| ProtocolSolo.SoloCancel | luci-app-taoistfuchen/root/etc/init.d/taoistfuchen-boot-delay:91-103 | one service of the scheduler's stop, run alone, has the effect of the scheduler's loop body |
| ProtocolSolo.StepIsAlone | luci-app-taoistfuchen/root/etc/init.d/fakesip:269-363 | running alone is the concurrent model's own step seen from the process that takes it |
| ProtocolInvariant.ProgramsAreTyped | luci-app-taoistfuchen/root/etc/init.d/fakesip:269-363 | every program of every command and of the scheduler is well bracketed in its locks, whatever gates open |
| ProtocolLocal.NextKeepsInv | luci-app-taoistfuchen/root/etc/init.d/taoistfuchen-boot-delay:17-103 | every event (tick, new command, runner killed, daemon up, any operation with any reads, failed or not, and any failed write) keeps the global invariant |
| ProtocolLocal.Reachable | luci-app-taoistfuchen/root/etc/init.d/fakesip:150-363 | the invariant holds in every state of every run |
| ProtocolTheorems.LineMoves | luci-app-taoistfuchen/root/usr/share/taoistfuchen/service-common.sh:259-273 | every change of a boot line: a wait always has a new token and the delay that its scheduler read for an enabled service; and unless an unreadable line has misled somebody, wait only from no line or wait, manual only by an enabled manual start, done only from no line or wait when that wait is over, cancel only by a stop, the scheduler or a disabled service |
| ProtocolTheorems.DoneWasRipe | luci-app-taoistfuchen/root/etc/init.d/fakesip:201-206 | a done line was ripe at an earlier moment of the run, unless an unreadable line has misled somebody |
| ProtocolTheorems.NoEarlyStart | luci-app-taoistfuchen/root/usr/share/taoistfuchen/service-common.sh:318-339 | no early automatic start in any interleaving in which no unreadable line has misled a process: when an instance appears the line says manual, or the wait then stored (with no line, the delay then read) had run out |
| ProtocolDelay.WaitIsConfigured | luci-app-taoistfuchen/root/etc/init.d/taoistfuchen-boot-delay:20-57 | in every run, whatever could not be read, the deadline of a stored wait is a boot delay that the scheduler read for this service earlier and found it enabled |
| ProtocolDelay.NoInstanceBeforeItsDelay | luci-app-taoistfuchen/root/usr/share/taoistfuchen/service-common.sh:318-339 | in every interleaving in which no unreadable line has misled a process, an instance that nobody started by hand appears only after a boot delay read for this service in this run has passed |
| ProtocolDelay.SupervisorStarts | luci-app-taoistfuchen/root/etc/init.d/taoistfuchen-boot-delay:66-77 | a wait that is over already is expired at once and waited for, one still ahead gets a runner, each for the very wait that was armed |
| ProtocolDelay.DueWaitIsExpired | luci-app-taoistfuchen/root/usr/share/taoistfuchen/boot-delay-runner.sh:17-24 | a runner that keeps seeing its wait becomes boot_expired as soon as the clock has reached the deadline |
| ProtocolTheorems.RegistrationIsSettled | luci-app-taoistfuchen/root/etc/init.d/fakesip:213-267 | an instance appears only by the submission of a validated definition, and then, unless an unreadable line has misled somebody, the line is manual or done |
| ProtocolTheorems.WaitNeverReturns | luci-app-taoistfuchen/root/etc/init.d/taoistfuchen-boot-delay:36-63 | a wait line that has been left never becomes the same line again, whatever is re-armed |
| ProtocolTheorems.NestedRecheckSucceeds | luci-app-taoistfuchen/root/etc/init.d/fakesip:179-191 | when the boot-expired decision is taken the line is still the wait the gate saw, and its deadline has passed unless an unreadable line has misled a runner |
| ProtocolTheorems.TokenExpiresOnce | luci-app-taoistfuchen/root/etc/init.d/fakesip:179-191 | each token retires its wait at most once in a run |
| ProtocolTheorems.RunnerWaits | luci-app-taoistfuchen/root/usr/share/taoistfuchen/boot-delay-runner.sh:17-24 | a runner becomes a boot_expired call only at or past its deadline, although it looks again without a lock, unless a poll could not read the line |
| ProtocolTheorems.StaleExpiryTouchesNothing | luci-app-taoistfuchen/root/etc/init.d/fakesip:328-331 | a gate that finds another line, or none it can read, changes no file and only releases its lock |
| ProtocolTheorems.CancelSticks | luci-app-taoistfuchen/root/etc/init.d/fakesip:352-363 | a cancelled line stays cancelled until an enabled manual start, reload or restart, as long as no unreadable line has misled a process |
| ProtocolTheorems.QuietServiceIsSettled | luci-app-taoistfuchen/root/etc/init.d/fakesip:213-218 | between commands of a service that no unreadable line has misled, its instance implies a manual or done line, and its nft table implies an instance unless a lock, read or write failed |
| ProtocolTheorems.StoppedStaysDown | luci-app-taoistfuchen/root/etc/init.d/fakesip:352-371 | after stop or disable the service is down at every later quiet moment until somebody starts it by hand or is misled by an unreadable line |
| ProtocolTheorems.GenerationCounts | luci-app-taoistfuchen/root/usr/share/taoistfuchen/service-common.sh:395-417 | the generation stays within 2^32-1, and counts the recorded link changes of any stretch of a run exactly as long as whoever records one can read the line before it |
| ProtocolInstances.ExpiryLooksAtLink | luci-app-taoistfuchen/root/etc/init.d/fakesip:189-190 | a boot-expired decision launches exactly when it does not see the link down; otherwise the command is left with the submission of an empty definition |
| ProtocolInstances.DownLinkStartsNothing | luci-app-taoistfuchen/root/etc/init.d/fakesip:189-190 | in any interleaving an expiry that sees its link down leads to no instance, neither before nor by its submission |
| ProtocolInstances.RegistrationHasOrigin | luci-app-taoistfuchen/root/etc/init.d/fakesip:162-267 | behind every instance stands a launching decision of the same process, manual, automatic or the expiry of a token, with nothing decided or submitted in between |
| ProtocolLaunch.LaunchIsCarriedOut | luci-app-taoistfuchen/root/etc/init.d/fakesip:213-267 | whatever other processes do meanwhile, a decision to launch ends in an instance exactly if the same process's validation succeeds |
| ProtocolLaunch.ManualStartIsCarriedOut | luci-app-taoistfuchen/root/etc/init.d/fakesip:169-178 | in any interleaving an enabled manual start sets the line to manual and, once its definition validates, leaves an instance when it submits |
| ProtocolInstances.TokenStartsOnce | luci-app-taoistfuchen/root/etc/init.d/fakesip:179-191 | each token starts at most one instance of a run |
| ProtocolReads.MisledWhen | luci-app-taoistfuchen/root/usr/share/taoistfuchen/service-common.sh:275-295 | the condition of the theorems read off the events: somebody has been misled exactly when one of the listed failed reads has happened |
| ProtocolReads.MisledExactly | luci-app-taoistfuchen/root/usr/share/taoistfuchen/service-common.sh:275-339 | the condition is exact: the failed reads it excludes are those that move a line as it must not move or send a runner on before its deadline, and no others |
| ProtocolEarlyStart.EarlyStart | luci-app-taoistfuchen/root/usr/share/taoistfuchen/boot-delay-runner.sh:17-24 | a concrete run of 19 events in which one poll cannot read the line and an instance appears at second 0 of a wait of 40 |
| ProtocolLocks.LockDiscipline | luci-app-taoistfuchen/root/usr/share/taoistfuchen/service-common.sh:341-373 | the flock is held exactly by the process whose depth is positive, no process is inside two services, and every process ends, on whatever path, with neither flock nor procd lock held |
| ProtocolLocks.WaitsDescend | luci-app-taoistfuchen/root/etc/init.d/taoistfuchen-boot-delay:26-69 | a process only ever waits for one that is further in: scheduler's procd lock, the command waited for, service's procd lock, lifecycle flock |
| ProtocolLocks.NoCycle | luci-app-taoistfuchen/root/etc/init.d/taoistfuchen-boot-delay:26-69 | in every reachable state the wait-for relation has no cycle, and no chain of it has more than five processes |
| ProtocolLocks.NoDeadlock | luci-app-taoistfuchen/root/etc/init.d/taoistfuchen-boot-delay:26-69 | in every reachable state each process can run or waits, over a chain of such waits, for one that can |
| FirewallMeaning.ExcludedByPrefix | luci-app-taoistfuchen/src/fakesip/src/ipv4nft.c:138-145 | the eight IPv4 prefixes are exactly the address ranges of the closed form |
| FirewallMeaning.ExcludedByPrefix6 | luci-app-taoistfuchen/src/fakesip/src/ipv6nft.c:138-147 | leaving 2000::/3 is exactly the IPv6 range of the closed form |
| FirewallMeaning.NftMeansPolicy | luci-app-taoistfuchen/src/fakesip/src/ipv4nft.c:78-175 | for any interface list, mark, mask and packet the nft chains give the closed-form verdict at both hooks (spelled out in QueuedExactly) |
| FirewallMeaning.QueuedExactly | luci-app-taoistfuchen/src/fakesip/src/ipv4nft.c:78-175 | said without rules or closed form: a packet is queued exactly if it is early UDP on a listed device with a public address and the masked bits of its mark are not the socket mark; inbound time-exceeded on a listed device is dropped; nothing is accepted |
| FirewallMeaning.IptablesMeansPolicy | luci-app-taoistfuchen/src/fakesip/src/ipv4ipt.c:78-210 | the same for iptables, and what our rules let through sees the unrelated rules as if nothing were installed |
| FirewallMeaning.BackEndsAgree | luci-app-taoistfuchen/src/fakesip/src/ipv6ipt.c:79-168 | both back ends decide every packet alike |
| FirewallMeaning.OnlyMaskedBitsMatter | luci-app-taoistfuchen/src/fakesip/src/ipv4ipt.c:183-184 | packets that differ only in bits of the mark outside the mask get the same verdict from both back ends, up to what unrelated iptables rules do with packets let through |
| FirewallMeaning.NoFeedback | luci-app-taoistfuchen/src/fakesip/src/ipv4ipt.c:183-210 | packets with the socket mark are never queued exactly when mark and mask together are the mark (the bits of the mark lie inside the mask) |
| FirewallMeaning.MarkedPacketsEscape | luci-app-taoistfuchen/src/fakesip/src/rawsend.c:260-265 | with the mark inside the mask no packet that carries it is queued by our rules under either back end |
| ChainTable.SetupInstalls | luci-app-taoistfuchen/src/fakesip/src/ipv4ipt.c:112-243 | from a clean table no setup command is refused and the result is the intended table, for any interface list |
| ChainCleanup.ForeignCommutes | luci-app-taoistfuchen/src/fakesip/src/ipv4ipt.c:247-273 | a command that names none of our chains has the same outcome and effect whether or not our rules are there |
| ChainCleanup.CleanupStep | luci-app-taoistfuchen/src/fakesip/src/ipv4ipt.c:250-272 | each cleanup command does its share from whatever state setup was left in and touches nobody else's rules |
| ChainRuns.CleanupUndoesSetup | luci-app-taoistfuchen/src/fakesip/src/ipv4ipt.c:227-273 | setup stopped after any number of commands and then cleaned up, with foreign commands interleaved anywhere and from any leftovers, amounts to the foreign commands alone |
| ChainRuns.CleanupStrips | luci-app-taoistfuchen/src/fakesip/src/ipv4ipt.c:247-273 | cleanup removes our rules and nothing else, and is idempotent |
| ChainRuns.SetupOverLeftovers | luci-app-taoistfuchen/src/fakesip/src/ipv4ipt.c:227-243 | setup over what any prefix of an earlier, differently configured setup left gives the same table as setup from clean |
| ChainRuns.PermittedPrefix | luci-app-taoistfuchen/src/fakesip/src/ipv4ipt.c:227-243 | setup that stops at its first refused command leaves a recoverable table and the rules of others alone even where cleaning did nothing, and when nothing is refused the table had been clean |
| FirewallRules.Mangle.IfaceSetup | luci-app-taoistfuchen/src/fakesip/src/ipv4ipt.c:31-104 | the interface loop: stops at the first failure or too long name, and the table is then the effect of a stretch of the script that was all permitted |
| FirewallRules.Mangle.Setup | luci-app-taoistfuchen/src/fakesip/src/ipv4ipt.c:107-244 | whatever the table was and whichever cleaning commands failed to run, setup succeeds exactly when names fit and every command is permitted and runs; the table is the effect of the whole script after cleaning, or on failure of a permitted stretch of it |
| FirewallRules.OnlyFaultsStop | luci-app-taoistfuchen/src/fakesip/src/ipv4ipt.c:229-241 | on a table that permits the script only commands that fail to run can stop setup |
| FirewallRules.Mangle.Cleanup | luci-app-taoistfuchen/src/fakesip/src/ipv6ipt.c:205-231 | cleanup is the effect of the commands that ran; it leaves a recoverable table recoverable and the rules of others alone, and exactly stripped when none was lost |
| NftRules.Ruleset.DevicePass | luci-app-taoistfuchen/src/fakesip/src/ipv4nft.c:78-120 | one interface's insert and two adds, each stopped by an overlong text or a failed command |
| NftRules.Ruleset.Setup | luci-app-taoistfuchen/src/fakesip/src/ipv6nft.c:125-188 | nft setup succeeds exactly when the ruleset text and every command text fit and every command runs; the table is then complete exactly when nothing was left behind or the deletion ran, otherwise the new rules stand behind the old |
| NftRules.RulesetAlwaysFits | luci-app-taoistfuchen/src/fakesip/src/ipv4nft.c:125-193 | the ruleset text fits its 2048 bytes for all 32-bit numbers |
| NftRules.AcceptedNamesFit | luci-app-taoistfuchen/src/fakesip/src/ipv6nft.c:78-111 | every interface name the option parser accepts fits the command buffers of both back ends and families |
| BackEnd.NetFilter.Setup | luci-app-taoistfuchen/src/fakesip/src/nfrules.c:41-91 | back-end choice with fallback and dual stack, on any tables: exactly when it succeeds, what it builds, what it does not touch; from recoverable tables success means the complete rules even if iptables cleaning commands were lost, and any failure stays recoverable |
| BackEnd.NetFilter.Cleanup | luci-app-taoistfuchen/src/fakesip/src/nfrules.c:94-117 | on any tables the effect of the cleaning commands that ran, in the families of the back end that setup chose; without a loss no trace is left |
| BackEnd.NetFilter.Serve | luci-app-taoistfuchen/src/fakesip/src/mainfun.c:439-499 | whether rule setup fails halfway, the signal handlers fail or the loop ends, the rules of others stay, the other back end is untouched, and without a loss in the closing cleanup no trace is left |
| BackEnd.ActiveMeansPolicy | luci-app-taoistfuchen/src/fakesip/src/nfrules.c:56-88 | after a successful setup every packet gets the closed-form verdict, whichever back end was chosen |
| PayloadRing.Ring.Link | luci-app-taoistfuchen/src/fakesip/src/payload.c:184-191 | linking behind the first node keeps one cycle that holds each input once |
| PayloadRing.Ring.Setup | luci-app-taoistfuchen/src/fakesip/src/payload.c:170-233 | setup succeeds exactly when there is an input and every allocation and filling works; otherwise everything allocated is freed |
| PayloadRing.Ring.Get | luci-app-taoistfuchen/src/fakesip/src/payload.c:252-257 | the k-th call returns input n-1-(k mod n) and advances |
| PayloadRing.Ring.Cleanup | luci-app-taoistfuchen/src/fakesip/src/payload.c:236-249 | from any current node cleanup ends, frees every node exactly once and reads no freed node |
| PayloadRing.MakeCustom | luci-app-taoistfuchen/src/fakesip/src/payload.c:127-167 | the read loop with its end-of-file and error indicators accepts a file exactly when it opens, reads and closes well and has fewer bytes than the buffer |
| PayloadRing.FullFileIsRefused | luci-app-taoistfuchen/src/fakesip/src/payload.c:141-156 | the witness: a file of 1200 bytes is refused, one byte less is accepted |
| PayloadRing.EveryWindowServesAll | luci-app-taoistfuchen/src/fakesip/src/payload.c:252-257 | any n calls in a row return every input exactly once |
| PayloadRing.PayloadArguments | luci-app-taoistfuchen/root/etc/init.d/fakehttp:169-172 | the prepending list builder and the enabled filter yield the enabled rows in reverse |
| PayloadRing.EnabledExactly | luci-app-taoistfuchen/root/etc/init.d/fakehttp:147-172 | every row gives its payload if it is enabled and nothing if it is not, in its place among the others |
| PayloadRing.ReversedListServesTableOrder | luci-app-taoistfuchen/root/etc/init.d/fakehttp:294-302 | reversed rows come out of such a ring in table order, the whole table once in every round of calls |
| PacketCodec.Make4 | luci-app-taoistfuchen/src/fakesip/src/ipv4pkt.c:89-145 | writes exactly the header, UDP header and payload bytes in place, fails exactly on a wrong family or a buffer without a spare byte, and touches nothing else |
| PacketCodec.Make6 | luci-app-taoistfuchen/src/fakesip/src/ipv6pkt.c:85-136 | the IPv6 counterpart |
| PacketCodec.RoundTrip4 | luci-app-taoistfuchen/src/fakesip/src/ipv4pkt.c:36-145 | parsing a made IPv4 packet returns the same addresses, TTL, ports and payload |
| PacketCodec.RoundTrip6 | luci-app-taoistfuchen/src/fakesip/src/ipv6pkt.c:36-136 | parsing a made IPv6 packet returns the same addresses, hop limit, ports and payload |
| PacketCodec.Layout4 | luci-app-taoistfuchen/src/fakesip/src/ipv4pkt.c:104-141 | byte by byte what is written: version, header length, no fragmentation, protocol, hop count, addresses and ports in network order, payload |
| PacketCodec.Layout6 | luci-app-taoistfuchen/src/fakesip/src/ipv6pkt.c:100-132 | the IPv6 counterpart |
| PacketCodec.Reads4 | luci-app-taoistfuchen/src/fakesip/src/ipv4pkt.c:36-86 | a packet with a header of any announced length, options included, is read with the fields that stand there |
| PacketCodec.Reads6 | luci-app-taoistfuchen/src/fakesip/src/ipv6pkt.c:36-82 | an IPv6 packet that announces UDP in its fixed header is read right behind it |
| PacketCodec.Lengths4 | luci-app-taoistfuchen/src/fakesip/src/ipv4pkt.c:122-134 | the total and UDP length fields are exact precisely below 65536 (and 65556) bytes and truncated beyond |
| PacketCodec.Lengths6 | luci-app-taoistfuchen/src/fakesip/src/ipv6pkt.c:117-126 | the payload and UDP length fields are exact precisely while the packet is shorter than 65576 bytes |
| RawSend.HopEstimateIsLeast | luci-app-taoistfuchen/src/fakesip/src/rawsend.c:57-66 | the estimate is the distance to the nearest usual initial TTL not below the observed one, at most 126 |
| RawSend.DecoyDiesOnTheWay | luci-app-taoistfuchen/src/fakesip/src/rawsend.c:69-84 | configured TTL <= decoy TTL < estimated hops, and the eight-bit result loses nothing |
| RawSend.RawSender.SendtoSnat | luci-app-taoistfuchen/src/fakesip/src/rawsend.c:150-193 | rebinds only when needed, tolerates EPERM, fails on any other error |
| RawSend.RawSender.SendPayload | luci-app-taoistfuchen/src/fakesip/src/rawsend.c:196-239 | one attempt sends exactly the encoded datagram, and never fails for lack of buffer |
| RawSend.RawSender.SendDecoys | luci-app-taoistfuchen/src/fakesip/src/rawsend.c:437-444 | the repeat loop sends one datagram per attempt and stops exactly at the first hard error |
| RawSend.RepeatDecoys | luci-app-taoistfuchen/src/fakesip/src/rawsend.c:437-444 | when every send succeeds exactly repeat decoys go out, all with one payload |
| RawSend.StopsAtFirstError | luci-app-taoistfuchen/src/fakesip/src/rawsend.c:437-444 | exactly where the repeat loop stops: at the first final error, where EPERM is passed over on the outgoing path and binding counts until it has succeeded; one packet goes out per success |
| RawSend.RawSender.Handle | luci-app-taoistfuchen/src/fakesip/src/rawsend.c:337-504 | the handler as written carries out the decision that DecidesExactly spells out, with what the search of the peer ring finds; decoys take exactly one payload and nothing is modified |
| RawSend.DecidesExactly | luci-app-taoistfuchen/src/fakesip/src/rawsend.c:337-475 | refused exactly if the family is off or the packet is no UDP of it; decoys exactly if the whitelist names one of the ports, the blacklist neither, the direction is enabled and the peer is farther away than the TTL wherever hops are estimated |
| RawSend.DecoyTtlExactly | luci-app-taoistfuchen/src/fakesip/src/rawsend.c:69-84 | the decoy's hop count: the configured TTL, or the configured share of the estimated distance if that is more |
| RawSend.DecoyOnTheWire | luci-app-taoistfuchen/src/fakesip/src/rawsend.c:408-503 | read back from the wire, decoys answer a host packet with exchanged endpoints, repeat an outgoing one's, carry the payload untouched and die before the peer |
| RawSend.OutgoingEstimateIs64 | luci-app-taoistfuchen/src/fakesip/src/rawsend.c:455-475 | with no recorded peers the outgoing estimate is always 64 hops |
| NfQueue.Queue.Callback | luci-app-taoistfuchen/src/fakesip/src/nfqueue.c:46-115 | a packet with a header gets exactly one verdict, an unmodified accept, after all of its decoys |
| NfQueue.InterfacesDecide | luci-app-taoistfuchen/src/fakesip/src/nfqueue.c:67-90 | a packet with an outgoing interface is outgoing even if it also came in by one; one that only arrived is answered; without either, or without data, there are no decoys |
| NfQueue.Loop | luci-app-taoistfuchen/src/fakesip/src/nfqueue.c:220-277 | the loop fails exactly on a fatal receive error or when a pass is due after twenty errors in a row |
| NfQueue.TwentyInARow | luci-app-taoistfuchen/src/fakesip/src/nfqueue.c:234-270 | twenty errors in a row are too many for one more pass; nineteen are not, nor any number with a success among the last twenty |
| SrcInfo.Ring.Put | luci-app-taoistfuchen/src/fakesip/src/srcinfo.c:88-110 | a put of a known family overwrites the oldest slot and the slots keep representing the history |
| SrcInfo.Ring.Get | luci-app-taoistfuchen/src/fakesip/src/srcinfo.c:113-130 | the search visits slots by the unsigned index expression and stops at a match or an empty slot |
| SrcInfo.IndexIs | luci-app-taoistfuchen/src/fakesip/src/srcinfo.c:119 | what the unsigned index is for any word size and capacity, before and after wrap-around |
| SrcInfo.FindsNewest | luci-app-taoistfuchen/src/fakesip/src/srcinfo.c:88-130 | until the ring first fills, and for ever when the capacity divides the word size, the newest match among the last C puts is found, or a miss reported |
| SrcInfo.FindsNewestIffInReach | luci-app-taoistfuchen/src/fakesip/src/srcinfo.c:118-128 | in a full ring the newest match is found exactly when its slot is visited and nothing older is met first |
| SrcInfo.RealPairExactly | luci-app-taoistfuchen/src/fakesip/src/srcinfo.c:32 | the exact condition for capacity 500 and a 64-bit word |
| SrcInfo.VisitedSlots | luci-app-taoistfuchen/src/fakesip/src/srcinfo.c:118-119 | exactly which slots a search of a full ring never visits |
| SrcInfo.HitsAreLive | luci-app-taoistfuchen/src/fakesip/src/srcinfo.c:123-126 | every hit is one of the last C puts and has the address asked for |
| SrcInfo.MissesLivePeer | luci-app-taoistfuchen/src/fakesip/src/srcinfo.c:118-129 | a concrete history of 501 puts in which a live peer is not found |
| Numerals.ValidUintRange | luci-app-taoistfuchen/root/usr/share/taoistfuchen/service-common.sh:46-63 | accepts exactly the canonical decimals of at most ten digits in range; the zero-stripping loop changes no value |
| Numerals.ReadsCanonical | luci-app-taoistfuchen/src/fakesip/src/portmap.c:48-68 | a canonical decimal is read by strtoul in base ten, never as octal, to its end |
| Numerals.ReadsDecimalExactly | luci-app-taoistfuchen/src/fakesip/src/portmap.c:48-68 | exactly which digit strings strtoul reads in decimal and to their end: canonical ones, and octal digits that are zero up to the last |
| Numerals.ReadsValidU32 | luci-app-taoistfuchen/src/fakesip/src/mainfun.c:233-239 | every 32-bit number the shell accepts, decimal or hexadecimal, is read with the same value to its end |
| Numerals.ValidU32Range | luci-app-taoistfuchen/root/usr/share/taoistfuchen/service-common.sh:96-119 | accepted 32-bit numbers lie in 1..2^32-1 |
| Numerals.U32Exactly | luci-app-taoistfuchen/root/usr/share/taoistfuchen/service-common.sh:96-119 | exactly the numbers 1..2^32-1 are accepted in decimal and in hexadecimal with either prefix, and taken for what they are |
| Numerals.OctalIsDifferent | luci-app-taoistfuchen/src/fakesip/src/portmap.c:48 | the witness: 010 is read as eight |
| PortMap.CheckPortSpec | luci-app-taoistfuchen/root/usr/share/taoistfuchen/service-common.sh:65-94 | accepts exactly the well-shaped lists of ports and ascending ranges within 1..65535 |
| PortMap.ItemsExactly | luci-app-taoistfuchen/root/usr/share/taoistfuchen/service-common.sh:65-94 | a decimal number or pair of numbers is an item exactly if it is a port or an ascending range within 1..65535, and means just that; ItemsAreNumbers says that there are no others |
| PortMap.SpecsAreLists | luci-app-taoistfuchen/root/usr/share/taoistfuchen/service-common.sh:65-94 | accepted are exactly the lists of one or more items separated by single commas |
| PortMap.SpecAgrees | luci-app-taoistfuchen/src/fakesip/src/portmap.c:41-74 | every specification the shell accepts parses, with the union of its decimal ranges as meaning (spelled out in MeantPortsExactly) |
| PortMap.ParsedPortsExactly | luci-app-taoistfuchen/src/fakesip/src/portmap.c:41-82 | a port is set exactly if it lies between the ends, both included, of a token before the first that does not parse |
| PortMap.MeantPortsExactly | luci-app-taoistfuchen/root/usr/share/taoistfuchen/service-common.sh:65-94 | a specification means exactly the ports between the ends, both included, of some item |
| PortMap.SetBit | luci-app-taoistfuchen/src/fakesip/src/portmap.c:87-99 | setting one bit of a byte changes the test of that bit and of no other |
| PortMap.Bitmap.Get | luci-app-taoistfuchen/src/fakesip/src/portmap.c:87-92 | get is membership in the set of ports |
| PortMap.Bitmap.Set | luci-app-taoistfuchen/src/fakesip/src/portmap.c:94-99 | set adds exactly one port, or nothing without a map |
| PortMap.Bitmap.Parse | luci-app-taoistfuchen/src/fakesip/src/portmap.c:28-85 | on success the earlier ports plus those of all tokens, on failure only those of the tokens before the bad one, as ParsedPortsExactly spells them out |
| PortMap.AcceptedWithoutPorts | luci-app-taoistfuchen/src/fakesip/src/portmap.c:41-74 | exactly which nonempty specifications are accepted and add no port: those of commas only |
| Text.ListOfPieces | luci-app-taoistfuchen/src/fakesip/src/portmap.c:41-46 | tokenising loses nothing: a text without separators at its ends or side by side is the list of its tokens |
| Text.PiecesOfList | luci-app-taoistfuchen/src/fakesip/src/portmap.c:41-46 | the tokens of a written list are its items |
| Text.ExtraSeparators | luci-app-taoistfuchen/src/fakesip/src/portmap.c:41-46 | separators at the ends or side by side separate nothing |
| SipUri.HostnamesAreLabels | luci-app-taoistfuchen/root/usr/share/taoistfuchen/service-common.sh:24-44 | a host name is accepted exactly if it is a dotted list of labels of letters, digits and inner hyphens, in 253 characters |
| SipUri.UriReads | luci-app-taoistfuchen/root/usr/share/taoistfuchen/service-common.sh:131-161 | user, host and port written as a URI are accepted exactly if each part is what it should be, in 255 characters |
| SipUri.UrisAreReadBack | luci-app-taoistfuchen/root/usr/share/taoistfuchen/service-common.sh:131-161 | every accepted URI is written like that |
| Options.ZeroArray.Push | luci-app-taoistfuchen/src/fakesip/src/mainfun.c:164-181 | appending with doubling keeps the array zero-terminated |
| Options.ZeroArray.Scan | luci-app-taoistfuchen/src/fakesip/src/mainfun.c:196-225 | a scan for the terminator stops exactly at the count |
| Options.Program.Handle | luci-app-taoistfuchen/src/fakesip/src/mainfun.c:132-338 | one turn of the option loop does what its option means, or is a usage error |
| Options.Program.Finish | luci-app-taoistfuchen/src/fakesip/src/mainfun.c:352-384 | the defaults and cross-checks behind the loop |
| Options.Program.Configure | luci-app-taoistfuchen/src/fakesip/src/mainfun.c:99-384 | main's verdict on any argument list, and the context it serves with |
| Options.AcceptedIsSound | luci-app-taoistfuchen/src/fakesip/src/mainfun.c:352-384 | every accepted context has numbers in range, the mark inside the mask, a device, family, direction and payload, and dynamic TTL only with hop estimation |
| OptionLaws.GetoptReadsClusters | luci-app-taoistfuchen/src/fakesip/src/mainfun.c:132 | a word may hold several flags and end in an option, whose value is the rest of the word or the next one; unknown letters and missing values are errors |
| OptionLaws.NumbersExactly | luci-app-taoistfuchen/src/fakesip/src/mainfun.c:233-328 | each numeric option sets its own field to the decimal value and takes just its own range |
| OptionLaws.FiltersExactly | luci-app-taoistfuchen/src/fakesip/src/mainfun.c:286-309 | a port option is refused exactly if empty or malformed, and adds exactly its ports to its own filter |
| OptionLaws.SettleExactly | luci-app-taoistfuchen/src/fakesip/src/mainfun.c:352-384 | exactly what main refuses behind the loop (mark bits outside the mask, no device, dynamic TTL without hop estimation) and what it fills in |
| FakeSipConfig.CheckInterfaces | luci-app-taoistfuchen/root/etc/init.d/fakesip:23-35 | interface list: all nonempty entries usable and at least one left; duplicates counted once |
| FakeSipConfig.Validate | luci-app-taoistfuchen/root/etc/init.d/fakesip:37-120 | the validator accepts exactly the valid configurations |
| OptionLaws.ValidNumbersExactly | luci-app-taoistfuchen/root/etc/init.d/fakesip:79-112 | canonical numbers pass the shell exactly if the program takes them, the queue has sixteen bits, dynamic TTL goes with hop estimation and the mark lies inside the mask |
| OptionLaws.QueueFreeExactly | luci-app-taoistfuchen/root/etc/init.d/fakesip:95-105 | a valid queue is refused exactly if an enabled sibling is configured with the same number |
| FakeSipConfig.Assemble | luci-app-taoistfuchen/root/etc/init.d/fakesip:235-261 | the command line is the option list in the script's order, interfaces without duplicates |
| OptionLaws.DistinctInOrder | luci-app-taoistfuchen/root/etc/init.d/fakesip:235-238 | interfaces are listed in the order of their first mention |
| FakeSipConfig.GetoptReadsWords | luci-app-taoistfuchen/src/fakesip/src/mainfun.c:132 | whatever the values look like, getopt hands back the options that were written |
| FakeSipConfig.ValidatedIsAccepted | luci-app-taoistfuchen/root/etc/init.d/fakesip:37-261 | every validated configuration is accepted past all checks, with the numeric meaning it was written to have |
| FakeSipConfig.DefaultsAreValid | luci-app-taoistfuchen/root/etc/init.d/fakesip:37-120 | the shipped defaults with one existing device are valid |
| EndToEnd.AcceptedNeverFeedsBack | luci-app-taoistfuchen/src/fakesip/src/mainfun.c:360-366 | for every argument list main accepts no packet with the socket mark is queued by the installed rules, for both back ends, families and hooks |
| EndToEnd.AcceptedNamesNeverStopSetup | luci-app-taoistfuchen/src/fakesip/src/mainfun.c:211-225 | for every accepted argument list all texts and names fit, so that rule setup completes when no command fails |
| EndToEnd.AcceptedIsSane | luci-app-taoistfuchen/src/fakesip/src/mainfun.c:252-328 | every accepted argument list meets the bounds packet handling relies on |
| EndToEnd.DirectionIsKept | luci-app-taoistfuchen/root/etc/init.d/fakesip:239-247 | the configured direction keeps its router-facing meaning through both swaps |
| EndToEnd.PortFilterIsKept | luci-app-taoistfuchen/root/etc/init.d/fakesip:253-256 | the filters main works with let exactly the packets through that the configured mode and decimal items say, whether a port lies between the ends of an item |
| EndToEnd.DecoysExactly | luci-app-taoistfuchen/root/etc/init.d/fakesip:239-258 | a validated configuration has decoys sent for exactly the UDP packets of its families and directions that its port items let through and whose peer is farther away than its TTL |
| EndToEnd.QueuedForConfiguration | luci-app-taoistfuchen/src/fakesip/src/ipv4nft.c:78-175 | its nft rules queue exactly the early UDP on its devices, from or to a public address, without the socket mark, to its queue |
| EndToEnd.InviteOnTheWire | luci-app-taoistfuchen/src/fakesip/src/payload.c:67-124 | for every URI the shell accepts, and none, the built text fills a node, its decoys fit the send buffer and an Ethernet frame, and what arrives reads back as the INVITE for that URI with a truthful Content-Length |
| Invite.BodyFits | luci-app-taoistfuchen/src/fakesip/src/payload.c:100-105 | the session description has at most 141 of 180 bytes for all random values |
| Invite.MessageFits | luci-app-taoistfuchen/src/fakesip/src/payload.c:109-119 | the message has at most 414 plus three times the URI's length bytes |
| Invite.ContentLengthIsExact | luci-app-taoistfuchen/src/fakesip/src/payload.c:53-63 | read as a SIP message the text has exactly the written headers and body, and Content-Length names the body's length |
| Invite.HeaderFields | luci-app-taoistfuchen/src/fakesip/src/payload.c:53-63 | the header fields by name and content, in order and once each, with one local host behind path, sender, call and contact |
| Invite.BodyLines | luci-app-taoistfuchen/src/fakesip/src/payload.c:45-51 | the session description line by line, from the same host |
| Invite.ValidUrisBuild | luci-app-taoistfuchen/root/usr/share/taoistfuchen/service-common.sh:131-161 | every URI the shell accepts, and the random default, builds, within 1179 of 1200 bytes |
| Invite.EveryInviteIsWellFormed | luci-app-taoistfuchen/src/fakesip/src/payload.c:67-124 | the built message fits, reads back as the INVITE for its URI and declares its true body length |

## Left out

- The FakeHTTP binary: its source is not part of this model; only the script's list order is.
- Sockets, netlink, process and signal handling, logging, daemonising, `-k`: calls that succeed or fail.
- Checksums and the IP identification: left open as parameters of the packet writer.
- NFQUEUE bypass without a listener, hook priorities between tables, interface-name wildcards, procd respawn: kernel or procd behaviour; interface names are compared for equality.
- Kernel checks for jump loops: the program's own jumps go from two chains to a third that has none.
- Ownership, mode and symlink checks of the state directory: one condition of each operation that can fail.
- `flock -u` failing, and state files corrupted by hand.
- `tf_boot_state_clear` and state removal at uninstall: no command of the modelled services calls them.
- When procd starts a runner: the model lets it start as soon as the scheduler has registered it, which allows more interleavings.
- Hotplug's device lookup and cache, uci-defaults migrations, LuCI views, Custom Logo, upload CGI, build scripts: plumbing.
- Memory exhaustion while options are parsed: arrays and maps take a flag for it, the option loop passes success.
- FakeHTTP's own configuration checks and option parser: the same shape as FakeSIP's.
- PayloadRing.Ring.Cleanup: the program leaves its `current` pointer dangling afterwards; the model keeps it too and claims nothing about later use.
- Invite.ContentLengthIsExact: asks for a URI without carriage returns; a URI given by hand with one can end the header early. All validated URIs meet it.
