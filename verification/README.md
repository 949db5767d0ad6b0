# Verification of the ground station's cores

This project models the cores of the ground station in Dafny and proves what each of them is for.
`dafny verify dfyconfig.toml` checks everything.

**Telemetry shared memory.** `Protocol` is the shared memory of `TelemetryShm` as a step system. Any number of
processes run `TelemetryViewer::update` cycles, `TelemetryWriter` sessions (lock, write, flush, unlock) and direct
`write` and `clear` calls; one step is one semaphore wait or post, one counter update or test, one byte copied into a
packet, one packet copied out, or one futex call. `Exclusion`, `Snapshots`, `Viewing`, `Wakeup`, `Sessions`, `Ledger`
and `Serial` each carry one part of the inductive invariant, `Telemetry` joins them and states what holds in every
run. `Deadlock` shows that somebody can always move; `Solo`, `Updating` and `Waking` show how calls end that have the
protocol to themselves, and what a sleeper that is woken returns with. `LostWake` says exactly when the packet-list form
of `read_lock` loses wake-ups. `Story`, `Flushing` and `EndToEnd` follow a measurement from the writer's call to the
reader's value, and `Completion` shows that every number can go that way. `Tickets` shows that the sessions of `Serial`
are those the processes open. History variables (the log of commits, what a session has written, when a process last
looked) say what happened; no step depends on them.

The steps of `Protocol` follow these lines of lib/telemetry/src:

- `EnterWrite`, `HoldWrite`, `LeaveWrite`: TelemetryShm.cpp:359-396 (and 426-463 for `clear`)
- `EnterRead`, `CheckStep`: TelemetryShm.cpp:518-568 for the list form, 650-727 for all packets
- `LeaveRead`: TelemetryShm.cpp:796-803; the futex wait and what follows it in `ViewStep`: 572-597 and 684-712
- the loops of `add_all` and `update` in `ViewStep`: TelemetryViewer.cpp:111-123 and 206-213
- `SessionStep`: TelemetryWriter.cpp:198-256 with `write_lock` and `write_unlock`, TelemetryShm.cpp:823-845
- `ChoiceStep`: the calls a process may make when it is free, and `write` of a measurement, TelemetryWriter.cpp:144-165
- `Init`: TelemetryShm.cpp:226-306

**Caches and conversions in place.** `Handle`, `Viewer` and `Writer` are the classes `TelemetryShm`,
`TelemetryViewer` and `TelemetryWriter` with their fields and loops, proved against the value functions of `Caches`
and `Recency` that the step system uses too. `Convert`, `NetOrder` and `Vcm` are the byte conversions and the reading
of a vehicle configuration, `Definitions` the lines that define a measurement; `Vcm` establishes the layout property
(`Layout.WellLaid`) that the telemetry theorems assume.

**Other cores.** `Controller`, `Engine` and `Commanding` are the engine controller, the stop-and-wait command protocol
over a network that loses, repeats and reorders datagrams, and the client's locks, event order and wait loop; `Turns`
lets any number of clients take turns under the command resource. `Xbee`
is the resumable frame receiver and the senders. `PacketLog` and `Dlp` are the log record format and the process that
splits the stream over files. `Clock` is the countdown clock. `Bytes`, `Decimals`, `History` and `Wrappers` hold what
they share.

Inputs that the code takes from outside - times, clock readings, datagrams, bytes read from a serial line, lines of a
configuration file, the contents of an uninitialised local - are parameters.

## Where the code and what is said about it differ

The model follows the code. Each of these is stated with the condition under which it matters.

- `read_lock` with a list waits on bit `i` for the `i`-th listed packet, while `write` wakes the bit of the packet id
  modulo 32 (lib/telemetry/src/TelemetryShm.cpp:546, 384): `LostWake.WokenExactlyWhenCovered` and
  `LostWake.LoneListenerIsMissed`.
- `clear` passes the nonce where the futex address belongs (line 453), so its step wakes nobody: a sleeper of either
  form sleeps through it, `LostWake.SleepsThroughExactlyWhen` and `LostWake.ClearIsMissed`.
- A packet tracked again after `remove_all` has a zeroed buffer but an old nonce:
  `Viewer.ReaddedIsCurrentExactlyWhen`.
- A client with a stale view is told its command was carried out when it was not
  (app/propulsion/ec_program/src/main.cpp:463-464 expects the acknowledgement to fail), and so is one with a fresh view
  after a client that gave up, whose command is still on its way under the same number: `Engine.FooledExactlyWhen`,
  `Turns.NextClientFooledExactlyWhen` and `Turns.GivingUpFoolsTheNext`. "Retransmitting" only restarts the timer:
  `Commanding.WaitForAck` sends nothing.
- The guard of set-hold tests `t0 - hold` (lib/clock/src/clock.cpp:150): `Clock.HoldGuardMissesExactlyWhen` and
  `Clock.SetHoldWhileHoldingJumps`.
- The XBee receiver does not keep the first length byte between calls (lib/dev/xbee/src/xbee.c:124):
  `Xbee.SplitLengthReadRightExactlyWhen`. It looks at the checksum byte again as a delimiter, and then misses the next
  frame: `Xbee.NextFrameHeardExactlyWhen`.
- `latest_data` compares 32-bit distances with `INT_MAX`: `Recency.NearestIsNewestExactlyWhen`.
- The timer of a client compares with the end of the limit in 32 bits and is over at once when that wraps around
  (app/propulsion/ec_cmd/src/main.cpp:216): `Commanding.ExpiredExactlyWhen`.
- `convert_from` pads negative numbers with zeros: `Convert.SignedPaddingCorrectExactlyWhen`.
- `MAX_FILE_SIZE` is 2^64 - 2^31 once stored in a `size_t`, where its comment says 2^32 (proc/dlp/src/dlp.cpp:18);
  `Dlp.ReadQueue` is proved for every positive limit.

## Model

| member | source | states |
|---|---|---|
| Exclusion.StepKeepsBalance | lib/telemetry/src/TelemetryShm.cpp:359-396 | every step of a process keeps the equations that tie the four semaphores and two counters to where all processes stand |
| Exclusion.MutualExclusion | lib/telemetry/src/TelemetryShm.cpp:367-389 | in every run of any number of processes, while one is copying into a packet or changing nonces, no other is, and no other holds a read lock |
| Exclusion.NoAdmission | lib/telemetry/src/TelemetryShm.cpp:518-526 | a step taken while the writers hold `readTry` does not raise the count of readers |
| Exclusion.WriterPreference | lib/telemetry/src/TelemetryShm.cpp:360-396 | from when the first writer has `readTry` until the last gives it back, over any number of steps, the count of readers never rises |
| Deadlock.NoDeadlock | lib/telemetry/src/TelemetryWriter.cpp:198-256 | in every reachable state with a process in the middle of something, such a process has an enabled step |
| Deadlock.PacketLockMoves | lib/telemetry/src/TelemetryWriter.cpp:219-242 | whoever waits for a packet lock waits, through higher packets only, for somebody who can move |
| Deadlock.TryTaken | lib/telemetry/src/TelemetryShm.cpp:359-367 | if `readTry` is taken, some process inside the protocol can move |
| Deadlock.ResourceTaken | lib/telemetry/src/TelemetryShm.cpp:796-802 | if `resource` is taken, some process inside the protocol can move |
| Snapshots.NextKeepsMemInv | lib/telemetry/src/TelemetryShm.cpp:369-372 | the master nonce counts the writes, and every packet and packet nonce is that of its last write, except for the packet one writer is at |
| Snapshots.SettledForReaders | lib/telemetry/src/TelemetryShm.cpp:518-550 | while someone holds a read lock, all packets and nonces are exactly those of the completed writes |
| Telemetry.UpdatedIsExact | lib/telemetry/src/TelemetryShm.cpp:550-560 | when a read lock succeeds, a packet is flagged if and only if it is asked about and was written since this process last refreshed it |
| Telemetry.BlocksExactlyWhenNothingNew | lib/telemetry/src/TelemetryShm.cpp:679-727 | a process that only takes the all-packets lock gets in, in blocking or non-blocking mode, exactly when something was written since its last success, and is then shown at least one flag |
| Telemetry.UpdateIsSnapshot | lib/telemetry/src/TelemetryViewer.cpp:190-222 | after every successful update each tracked buffer is the whole packet at one common instant, although unflagged packets are not copied |
| Updating.LetInSucceeds | lib/telemetry/src/TelemetryViewer.cpp:206-221 | whatever the others do, a process that was let in and has come out of its update has success |
| Updating.UpdateByItself | lib/telemetry/src/TelemetryViewer.cpp:190-222 | from every reachable state in which a process is idle and nobody else is inside the protocol, its update ends, with its own steps only: with success if and only if the mode is standard or something is new (a listed packet written since it was last refreshed, or any write), and then with the tracked buffers as in shared memory; else `Blocked`, asleep or failed by mode and list, with its buffers as they were |
| Updating.WokenEnds | lib/telemetry/src/TelemetryShm.cpp:572-597 | a process that has been woken looks again and comes out of its update in the same way |
| Waking.CallWrites | lib/telemetry/src/TelemetryShm.cpp:359-463 | a `write` or `clear` that has the protocol to itself ends, and has put its bytes into the one packet and moved its nonce and the master nonce on, and nothing else |
| Waking.SleeperReadsTheWrite | lib/telemetry/src/TelemetryShm.cpp:545-597 | from every reachable state in which a process sleeps and nobody else is inside the protocol, a write of a packet that it waits for and has a bit for ends its update, with success and the bytes written |
| Telemetry.NoLostWakeup | lib/telemetry/src/TelemetryShm.cpp:679-712 | if a write that a sleeper waits for has happened since it looked, it is the last write and its wake call is still to come |
| Telemetry.NoLostWakeupAll | lib/telemetry/src/TelemetryShm.cpp:679-712 | while a process sleeps in the all-packets form with a master nonce that is not the shared one, some wake call is still to come, if and only if the last write was no `clear` |
| Telemetry.NoLostWakeupListed | lib/telemetry/src/TelemetryShm.cpp:545-597 | a listed sleeper on the bit of a packet with a newer nonce is about to be woken for it, if and only if the last write of that packet was no `clear` |
| LostWake.WokenExactlyWhenCovered | lib/telemetry/src/TelemetryShm.cpp:545-573 | in every reachable state with nobody else inside the protocol and a process about to write packet j, by a call of its own or in a flush, a listed sleeper is woken for j in every continuation if and only if j modulo 32 is below the length of its list |
| LostWake.SleepsThroughExactlyWhen | lib/telemetry/src/TelemetryShm.cpp:384 | in every reachable state with nobody else inside the protocol, a sleeper of either form can sleep through a whole `write`, called directly or by a flush, or a whole `clear`, with no wake call left to come, if and only if it is a `clear` or the sleeper does not wait on the bit of that packet |
| LostWake.ClearIsMissed | lib/telemetry/src/TelemetryShm.cpp:449-454 | from the start of the system, a viewer of one packet is reachable that sleeps through a `clear` of it |
| LostWake.LoneListenerIsMissed | lib/telemetry/src/TelemetryShm.cpp:545-573 | from the start of the system, a viewer of one packet whose id is not a multiple of 32 is reachable and is missed |
| Sessions.NextKeepsPacketLocksInv | lib/telemetry/src/TelemetryShm.cpp:808-849 | each packet lock is free or held by exactly one session, in every run |
| Telemetry.SessionsSerialise | lib/telemetry/src/TelemetryWriter.cpp:144-256 | whenever nobody is inside a write, every virtual packet holds what running the sessions one after another would give |
| Tickets.TicketIsTheSession | lib/telemetry/src/TelemetryWriter.cpp:219-256 | the sessions in question are real: while a session is open, the commits of virtual packets since it was opened are exactly those with its ticket, whatever everybody does |
| Telemetry.FlushWritesOwnEdits | lib/telemetry/src/TelemetryWriter.cpp:198-217 | what a flush stores is the packet as last committed with this session's own unflushed edits applied, so it undoes nothing of anybody else |
| Ledger.StepKeepsSessionOk | lib/telemetry/src/TelemetryWriter.cpp:198-242 | the cache of every packet a session holds is the committed packet with its pending edits applied, and an unmarked packet has none |
| Flushing.WritePutsNumber | lib/telemetry/src/TelemetryWriter.cpp:131-165 | a call that writes host bytes to a measurement puts the number they stand for, in the declared byte order, in every place of it in a virtual packet, and marks the packet |
| Flushing.FlushLeavesNoMark | lib/telemetry/src/TelemetryWriter.cpp:198-217 | whatever the others do, a flush that has come to its end has left no packet marked |
| Flushing.WriteReachesPackets | lib/telemetry/src/TelemetryWriter.cpp:144-217 | in every run with a write of a measurement and then a flush by an open session, each virtual packet the measurement lies in is written in between |
| EndToEnd.WrittenIsRead | lib/telemetry/src/TelemetryWriter.cpp:131-217 | in every run in which a session writes host bytes to a measurement of virtual packets, does not write it again and flushes, these bytes in the declared order are what every process that tracks it gets after a later update, whatever else runs in between, unless those packets are written again |
| EndToEnd.NumberWrittenIsNumberRead | lib/telemetry/src/TelemetryViewer.cpp:345-360 | over the same runs, an unsigned number of one to four bytes given to `write` in the host's byte order is what `get_uint` gives every such process, in either declared byte order |
| EndToEnd.SignedWrittenIsSignedRead | lib/telemetry/src/TelemetryViewer.cpp:328-343 | the same for signed numbers and `get_int` |
| Completion.SessionOpens | lib/telemetry/src/TelemetryWriter.cpp:219-242 | with nobody inside the protocol and no other session, `lock` comes to hold all locks and changes no packet |
| Completion.FlushCompletes | lib/telemetry/src/TelemetryWriter.cpp:198-217 | with nobody else inside the protocol, `flush` ends with no mark left, after at most one write of each packet |
| Completion.ClosedIsFree | lib/telemetry/src/TelemetryWriter.cpp:244-256 | and `unlock` ends with every packet lock free |
| Completion.EveryNumberGetsThrough | lib/telemetry/src/TelemetryWriter.cpp:144-217 | from every reachable state in which two processes are idle, nobody is inside the protocol and no session is open, and for every number that fits, some run leads through its write and a flush by one and an update by the other, which then gets it from `get_uint` |
| Completion.EverySignedGetsThrough | lib/telemetry/src/TelemetryViewer.cpp:328-343 | the same for signed numbers and `get_int` |
| EndToEnd.SessionKeepsOthers | lib/telemetry/src/TelemetryWriter.cpp:157-162 | while a session is open, a measurement of a virtual packet that it does not write keeps its committed bytes, whatever everybody does |
| EndToEnd.OthersAreStillRead | lib/telemetry/src/TelemetryWriter.cpp:157-217 | so everyone who updates after such a session still gets, for a measurement it left alone, the bytes from before it |
| EndToEnd.LatestIsMostRecentlyWritten | lib/telemetry/src/TelemetryViewer.cpp:228-257 | after an update, while every place was written fewer than 2^32 writes before it, the place chosen lies in a packet that no other place's packet was written after, if and only if some place was written fewer than 2^31 - 1 writes before |
| Recency.NearestIsNewestExactlyWhen | lib/telemetry/src/TelemetryViewer.cpp:238-251 | of counters all less than 2^32 behind, the search by 32-bit differences finds a newest one, across wrap-around, if and only if some counter is less than 2^31 - 1 behind |
| Recency.Nearest | lib/telemetry/src/TelemetryViewer.cpp:238-251 | the search gives the first of the smallest distances below `INT_MAX`, and none exactly if all are at least that |
| Recency.WrappedDistanceMisleads | lib/telemetry/src/TelemetryViewer.cpp:238-251 | at 2^32 behind that ends: a copy that old is taken for the newest, before one written one write ago |
| Handle.Shared.constructor | lib/telemetry/src/TelemetryShm.cpp:226-306 | zeroed packets, all nonces 1, all packet locks free, no reader inside |
| Handle.TelemetryShm.Write | lib/telemetry/src/TelemetryShm.cpp:334-398 | packet, packet nonce and master nonce change together and nothing else; an invalid id changes nothing |
| Handle.TelemetryShm.ReadLockAll | lib/telemetry/src/TelemetryShm.cpp:605-730 | success, `Blocked` or waiting by mode and master nonce; on success flags and kept nonces are refreshed for all packets and one reader more is counted, otherwise none is |
| Handle.TelemetryShm.ReadLockThese | lib/telemetry/src/TelemetryShm.cpp:468-596 | the same by the listed packets' nonces, refreshing only those; fails if the lock is held |
| Handle.TelemetryShm.ReadUnlock | lib/telemetry/src/TelemetryShm.cpp:774-806 | fails, changing nothing, only if not locked and not forced; otherwise one reader fewer is counted and the last one posts `resource` |
| Handle.TelemetryShm.WriteLock | lib/telemetry/src/TelemetryShm.cpp:808-829 | takes the packet lock once; refuses invalid ids and packets already locked, changing nothing |
| Handle.TelemetryShm.WriteUnlock | lib/telemetry/src/TelemetryShm.cpp:831-849 | gives back just a lock that is held |
| Handle.TelemetryShm.UpdateValue | lib/telemetry/src/TelemetryShm.cpp:894-908 | the 32-bit distance of the packet's last seen nonce from the master nonce |
| Viewer.TelemetryViewer.Add | lib/telemetry/src/TelemetryViewer.cpp:148-169 | a new packet is tracked once with a zeroed buffer, one tracked already is left alone, an invalid id changes nothing |
| Viewer.TelemetryViewer.AddMeasurement | lib/telemetry/src/TelemetryViewer.cpp:125-141 | succeeds exactly if all places are in known packets, and then tracks them all |
| Viewer.TelemetryViewer.AddAll | lib/telemetry/src/TelemetryViewer.cpp:111-123 | every packet is tracked afterwards, none dropped |
| Viewer.TelemetryViewer.Update | lib/telemetry/src/TelemetryViewer.cpp:190-222 | on success exactly the tracked and flagged buffers are replaced by the shared packets; otherwise no buffer changes; the count of readers is left as it was |
| Viewer.CopyStepsAreCopyFlagged | lib/telemetry/src/TelemetryViewer.cpp:206-213 | the copy loop taken step by step under the read lock leads to the same buffers |
| Viewer.TelemetryViewer.LatestData | lib/telemetry/src/TelemetryViewer.cpp:228-257 | the minimum search finds the place with the smallest distance |
| Viewer.TelemetryViewer.Updated | lib/telemetry/src/TelemetryViewer.cpp:259-275 | true if and only if some packet of the measurement is flagged |
| Viewer.TelemetryViewer.ReadUint | lib/telemetry/src/TelemetryViewer.cpp:345-360 | the unsigned value of the newest copy, or failure |
| Viewer.TelemetryViewer.ReadInt | lib/telemetry/src/TelemetryViewer.cpp:328-343 | the two's complement value of the newest copy, or failure |
| Viewer.TelemetryViewer.GetRaw | lib/telemetry/src/TelemetryViewer.cpp:362-375 | the bytes of the newest copy, or failure |
| Viewer.ReaddedIsCurrentExactlyWhen | lib/telemetry/src/TelemetryViewer.cpp:104-109 | a packet tracked again, by itself or through `add_all`, shows the shared packet after the next successful update if and only if it was written in between or is all zeros |
| Writer.TelemetryWriter.TelemetryCopy | lib/telemetry/src/TelemetryWriter.cpp:131-142 | the bytes land in the byte order of the measurement and nothing around them changes |
| Writer.TelemetryWriter.Write | lib/telemetry/src/TelemetryWriter.cpp:144-165 | every place in a virtual packet is written and marked; a wrong length changes nothing |
| Writer.TelemetryWriter.WriteRaw | lib/telemetry/src/TelemetryWriter.cpp:180-196 | the same without reordering, for up to the size of the measurement |
| Writer.TelemetryWriter.Flush | lib/telemetry/src/TelemetryWriter.cpp:198-217 | the marked packets are logged and written in order and no mark is left; the result joins those of their loggers |
| Writer.LogIsOfTheMarked | lib/telemetry/src/TelemetryWriter.cpp:203-207 | the loggers are given the buffers of exactly the marked packets, each once and in order |
| Writer.FlushStoresTheMarked | lib/telemetry/src/TelemetryWriter.cpp:203-214 | after a flush a marked packet is its buffer, and an unmarked one has its old bytes and nonce |
| Writer.NonceCounts | lib/telemetry/src/TelemetryWriter.cpp:203-214 | a flush moves the master nonce on by the number of marked packets |
| Writer.FlushedNoncesDiffer | lib/telemetry/src/TelemetryWriter.cpp:203-214 | no two packets that a flush writes get the same nonce, also across the wrap-around of the counter |
| Writer.TelemetryWriter.Lock | lib/telemetry/src/TelemetryWriter.cpp:219-242 | takes the locks of the virtual packets in order up to the first one this handle has already, and succeeds if there is none; exactly these semaphores go down, and exactly these packets are loaded, always or where flagged |
| Writer.TelemetryWriter.Unlock | lib/telemetry/src/TelemetryWriter.cpp:244-256 | gives back the locks of the virtual packets in order up to the first one not held, and succeeds if there is none; the cache stays |
| Story.WriteShowsItself | lib/telemetry/src/TelemetryWriter.cpp:157-162 | after a write every copy of the measurement in a virtual packet is the bytes written |
| Story.WriteKeepsShown | lib/telemetry/src/TelemetryWriter.cpp:157-162 | a write changes no copy of any other measurement |
| Convert.ToUnsigned | lib/convert/src/convert.cpp:76-106 | the number the bytes stand for in the declared byte order; refused for other types and sizes above four |
| Convert.ToSigned | lib/convert/src/convert.cpp:108-165 | the two's complement number of one to four bytes in the declared byte order |
| Convert.FromUnsigned | lib/convert/src/convert.cpp:277-307 | for every size of at least four the bytes written stand for the number; smaller sizes change nothing |
| Convert.FromSigned | lib/convert/src/convert.cpp:309-339 | the 32-bit pattern of the number, padded with zeros on its high side |
| Convert.SignedPaddingCorrectExactlyWhen | lib/convert/src/convert.cpp:319-336 | what is written for a signed number reads back as that number if and only if it is not negative or the size is four |
| Convert.MinusOneInFiveBytes | lib/convert/src/convert.cpp:319-336 | minus one in five bytes reads back as 4294967295 |
| Convert.EncodeThenValue | lib/convert/src/convert.cpp:285-304 | a number that fits a size is the number its encoding of that size stands for |
| Convert.ValueThenEncode | lib/convert/src/convert.cpp:285-304 | the bytes of a size are determined by the number they stand for |
| Convert.UnsignedRoundTrip | lib/convert/src/convert.cpp:76-106 | every unsigned number survives writing and reading at size four, in either byte order |
| Convert.SignedRoundTrip | lib/convert/src/convert.cpp:108-165 | every signed number survives writing and reading at size four, in either byte order |
| NetOrder.Hton | lib/dev/xbee/src/net.c:37-68 | the result, stored on a little-endian host, is the big-endian encoding of the number |
| NetOrder.NtohOfHton | lib/dev/xbee/src/net.c:72-82 | `ntoh` after `hton` gives the number back |
| Vcm.VehicleConfig.Init | lib/vcm/src/vcm.cpp:140-447 | after success, with positive sizes, every stored place lies inside an existing packet, no two overlap, and every byte of every packet, from 0 to its size, belongs to exactly one |
| Vcm.VehicleConfig.ReadPacket | lib/vcm/src/vcm.cpp:283-348 | the packet holds the listed measurements in order, its size is the sum of theirs, and its port is that of no packet before |
| Vcm.VehicleConfig.PacketHead | lib/vcm/src/vcm.cpp:287-308 | virtual, or a 16-bit port that no other packet has |
| Vcm.VehicleConfig.Define | lib/vcm/src/vcm.cpp:349-429 | the name stands for a new entry with the size, type, byte order and sign of the line, or the line is refused and nothing is added |
| Definitions.DefinedExactlyWhenSpelled | lib/vcm/src/vcm.cpp:349-425 | a line of two to five words defines a measurement if and only if its second word starts with the size and the rest spell its type, byte order and sign, the last two in either order, with the host's order and `signed` where they are left out |
| Definitions.DefinitionRoundTrip | lib/vcm/src/vcm.cpp:349-425 | a line written for a measurement, size in decimal and words set apart by spaces, is read as that measurement |
| Vcm.VehicleConfig.Net | lib/vcm/src/vcm.cpp:177-249 | accepted exactly for automatic mode with a number as port that no other device has; then the device is stored under its port and its name with the next number, else nothing changes |
| Vcm.VehicleConfig.Setting | lib/vcm/src/vcm.cpp:250-282 | which settings are accepted and what each one changes |
| Vcm.OrderOfOptionsIsFree | lib/vcm/src/vcm.cpp:383-425 | byte order and sign may be given in either order |
| Vcm.TilingIsWellLaid | lib/vcm/src/vcm.cpp:334-338 | places and packet contents that correspond one to one tile each packet: inside, without overlap and without gap, also for measurements that repeat or are defined again |
| Vcm.HolderIsOnly | lib/vcm/src/vcm.cpp:334-338 | in such a layout a byte of a packet belongs to one place only |
| Vcm.ByteHasPlace | lib/vcm/src/vcm.cpp:334-338 | and every byte up to the size of its packet belongs to one |
| Controller.EngineController.Receive | sim/ec_sim/src/ec_sim.cpp:167-236 | only the command numbered one above is carried out; every datagram of fitting length is answered with the current number, a longer one with nothing |
| Controller.CommandSurvives | include/lib/ec/ec.h:20-24 | a command read from the bytes sent is the command that was meant |
| Controller.Executed | sim/ec_sim/src/ec_sim.cpp:190-231 | a command sets exactly the output its control number names, and none if its state exceeds eight bits |
| Controller.OutputsAreNamed | sim/ec_sim/src/ec_sim.cpp:190-231 | every output has just its own control number, and no other number names any |
| Controller.LastCommandWins | sim/ec_sim/src/ec_sim.cpp:196-231 | after any list of commands each output shows the last one that concerned it |
| Engine.AcceptedIsPrefixOfSent | app/propulsion/ec_program/src/main.cpp:526-592 | from a fresh view with no unexecuted command left over, over a network that loses, repeats and reorders, the commands accepted are a prefix of those sent, include each acknowledged one, none twice, at most one more, and the outputs are what executing just these gives |
| Engine.WaitCanEnd | app/propulsion/ec_program/src/main.cpp:551-589 | from every state such a run reaches in which the client waits, two steps end its wait if its command was carried out and three if it was not, with everything sent carried out and acknowledged |
| Engine.GenuineAckEndsWait | app/propulsion/ec_cmd/src/main.cpp:210-221 | with all sent commands carried out, the acknowledgement with the controller's number ends the wait |
| Engine.NothingLost | app/propulsion/ec_program/src/main.cpp:526-592 | from a fresh view and with nothing lost, any list of commands is carried out in order and acknowledged, four steps for each |
| Engine.FooledExactlyWhen | app/propulsion/ec_cmd/src/main.cpp:144-214 | for any view, with any acknowledgements up to the controller's number and commands up to one above it in flight, a command can be acknowledged without having been carried out if and only if the number after the view is the controller's, is shown already or is in an acknowledgement in flight, or the view is fresh and a command with that number is in flight |
| Engine.OneBehindIsFooled | app/propulsion/ec_cmd/src/main.cpp:144-214 | the run of four steps that does it from a view one behind |
| Engine.ShownNumberFools | app/propulsion/ec_cmd/src/main.cpp:144-214 | the run of two steps that does it when telemetry shows the number already |
| Engine.LateAckFools | app/propulsion/ec_cmd/src/main.cpp:144-214 | the run of three steps that does it with a late acknowledgement, as from a view two behind |
| Engine.LeftoverFools | app/propulsion/ec_cmd/src/main.cpp:144-214 | the run of four steps that does it from a fresh view with another command of the same number in flight |
| Engine.GivingUpLeavesCommand | app/propulsion/ec_cmd/src/main.cpp:210-236 | a client that hears nothing for five timeouts gives up and leaves such a command in flight, with the controller where it was |
| Turns.TurnsMeetHypothesis | app/propulsion/ec_program/src/main.cpp:518-600 | after any turns of any clients, each with any view ever shown, no command in flight is more than one above the controller and no acknowledgement is above it |
| Turns.NextClientFooledExactlyWhen | app/propulsion/ec_program/src/main.cpp:518-600 | after any turns, the next client can be told of a command that was not carried out if and only if its view is stale or a client that gave up has left a command in flight |
| Turns.TurnLeavesCommandExactlyWhen | app/propulsion/ec_cmd/src/main.cpp:222-236 | a turn with a fresh view and nothing left over leaves a command exactly if it has sent one that was not carried out; if it ends with an acknowledgement it leaves none, and its view is the controller's number |
| Turns.GoodTurnsCarryOutAll | app/propulsion/ec_program/src/main.cpp:518-600 | over any number of turns that begin with a fresh view and end with an acknowledgement, everything sent is carried out once and in order |
| Turns.AnyOrdersGetThrough | app/propulsion/ec_program/src/main.cpp:518-600 | there are such turns: after any turns that leave nothing over, a client with a fresh view can have any list of commands carried out |
| Turns.GivingUpFoolsTheNext | app/propulsion/ec_cmd/src/main.cpp:222-236 | from nothing in flight, ten steps of two clients with fresh views in which the second is told of a command that was not carried out |
| Commanding.WaitForAck | app/propulsion/ec_cmd/src/main.cpp:210-255 | for any time limit, ends at the first reading of the awaited number, or at the fifth timeout if that comes first |
| Commanding.TimeoutsTakeTheirTime | app/propulsion/ec_cmd/src/main.cpp:214-235 | with readings no further apart than a gap and no wrap-around of the clock, each timeout takes at least the limit and at most the limit and a gap |
| Commanding.GivesUpInTime | app/propulsion/ec_cmd/src/main.cpp:214-235 | so a client gives up between five limits and five gaps more after it began |
| Commanding.ExpiredExactlyWhen | app/propulsion/ec_cmd/src/main.cpp:215-216 | the timer has run out if and only if the limit has passed, or the end of the limit lies past the wrap-around of its 32-bit clock |
| Commanding.VLock.TryLock | lib/vlock/src/vlock.cpp:119-142 | takes a free resource, reports a taken one, refuses an unknown one |
| Commanding.VLock.Unlock | lib/vlock/src/vlock.cpp:182-201 | posts the semaphore of a known resource, whoever calls |
| Commanding.OneHolder | lib/vlock/src/vlock.cpp:119-201 | used with discipline, a resource never has two holders |
| Commanding.GiveKeepsLockExactlyWhenHeld | lib/vlock/src/vlock.cpp:182-201 | giving back keeps it a lock if and only if the giver held it |
| Commanding.CheckTimes | app/propulsion/ec_program/src/main.cpp:158-165 | a program is refused exactly if a time is earlier than one before it |
| Commanding.SortKeepsTimes | app/propulsion/ec_program/src/main.cpp:269 | sorting an accepted program changes no time at any position |
| Commanding.SkipPassed | app/propulsion/ec_program/src/main.cpp:424-451 | what is skipped was past at some reading of the clock, and what remains was not past at any |
| Commanding.Execute | app/propulsion/ec_program/src/main.cpp:472-499 | each event is carried out at the first reading that is not before its time, in order, until none is left, the clock is seen stopped, or every remaining reading is before the next event |
| Xbee.XbeeReceiver.RxComplete | lib/dev/xbee/src/xbee.c:109-226 | a call does to the receiver exactly what its bytes do one by one, whatever the chunk, apart from the forgotten length byte |
| Xbee.FeedFrame | lib/dev/xbee/src/xbee.c:171-201 | a whole frame causes exactly its callback, and leaves the receiver between frames unless its checksum is the delimiter |
| Xbee.FrameIsHeard | lib/dev/xbee/src/xbee.c:171-201 | a receive frame with an address, options and data makes the one callback with just the data and that address, any other frame none |
| Xbee.ChecksumAddsUp | lib/dev/xbee/src/xbee.c:85-91 | the contents of a frame and its checksum add up to 255 in eight bits |
| Xbee.OneWrongByteIsRefused | lib/dev/xbee/src/xbee.c:171-201 | a frame with any one byte of its contents changed makes no callback |
| Xbee.NextFrameHeardExactlyWhen | lib/dev/xbee/src/xbee.c:171-201 | of two frames back to back the second causes its callback if and only if the first one's checksum is not the delimiter or the second has none to cause |
| Xbee.ChunkingDoesNotMatter | lib/dev/xbee/src/xbee.c:109-226 | however a stream of well-formed frames is cut, not between two length bytes, the callbacks are those of the frames in order |
| Xbee.Bridge | app/xbee/xbee_bridge/src/main.cpp:141-153 | reads of at most the requested length, of any size, give exactly the data of the receive frames sent, each with its source address, in order |
| Xbee.FullReads | app/xbee/xbee_bridge/src/main.cpp:141-153 | a line that gives all that is asked for makes such reads, whatever the frames |
| Xbee.SplitLengthReadRightExactlyWhen | lib/dev/xbee/src/xbee.c:124-163 | a length cut in two is read right if and only if the next call finds the same byte in its local buffer |
| Xbee.XbeeSender.SendTo | lib/dev/xbee/src/xbee.c:71-100 | what is written is the encoded frame with the checksum the receiver accepts |
| Xbee.SentIsHeard | lib/dev/xbee/src/xbee.c:71-100 | what is sent to an address names it, and data sent by one radio and put out by the one that hears it arrives as it was sent |
| Xbee.RemoteCommandFields | lib/dev/xbee/src/xbee.c:232-262 | a remote command names its destination and carries command and parameter whole |
| Xbee.XbeeSender.RemoteAtCmd | lib/dev/xbee/src/xbee.c:232-262 | the same for remote commands |
| PacketLog.PacketLogger.LogPacket | lib/dls/src/PacketLogger.cpp:17-54 | the message on the queue is the encoded record |
| PacketLog.RetrieveRecord | lib/dls/src/PacketLogger.cpp:56-149 | for any bytes, what the byte-by-byte reader gives and leaves is what the record grammar says |
| PacketLog.ParsedExactlyWhenSpelled | lib/dls/src/PacketLogger.cpp:56-149 | on any bytes, a record is read if and only if they spell one behind bytes without '[', and then it is that record |
| PacketLog.ParseOfEncode | lib/dls/src/PacketLogger.cpp:56-149 | a record written and read is the same record, with what follows it untouched; timestamp and data may be any bytes |
| PacketLog.NameSurvivesExactlyWhen | lib/dls/src/PacketLogger.cpp:105-119 | a record with a name free of NUL is read back if and only if the name has no '>' |
| Dlp.ReadQueue | proc/dlp/src/dlp.cpp:124-223 | the files hold whole messages, all those kept, in order; each file but the last is closed at the message that fills it |
| Dlp.KeepsEnabled | proc/dlp/src/dlp.cpp:149-222 | each message that comes while logging is on is kept, after those kept before it, and no other is |
| Dlp.LogRoundTrip | proc/dlp/src/dlp.cpp:149-222 | records logged are recovered, all and in order, from the files in index order, however they were split |
| Dlp.WriteAndReadBack | proc/dlp/src/dlp.cpp:124-223 | writing any list of records and reading the files back gives that list |
| Dlp.FileNamesDiffer | proc/dlp/src/dlp.cpp:220-222 | no file name is used twice |
| Clock.CountdownClock.ParseCmd | lib/clock/src/clock.cpp:92-215 | success and the new record are those of `Succeeds` and `After`, which are given in terms of the displayed time |
| Clock.CountdownClock.ReadTime | lib/clock/src/clock.cpp:217-269 | the displayed time, whether it is held, and the hold itself where it is asked for and set |
| Clock.CommandMeans | lib/clock/src/clock.cpp:92-215 | while no stored time leaves 32 bits and no hold in progress is replaced, each command is accepted exactly when, and does to what is shown just what, its name says |
| Clock.ShowsWhatIsMeant | lib/clock/src/clock.cpp:92-269 | over any run of such commands the record of 32-bit times shows, at any later time, what a clock defined by what it shows would show |
| Clock.ReleaseLetsGo | lib/clock/src/clock.cpp:170-188 | a released clock runs on from what it showed, and is not held when it is started again |
| Clock.NoJumpExactlyWhenSmooth | lib/clock/src/clock.cpp:113-188 | start, stop, set-hold and release leave the display where it is if and only if no stored time leaves 32 bits and set-hold does not replace a hold in progress |
| Clock.Conservation | lib/clock/src/clock.cpp:113-206 | over any run of these commands the display changes by exactly the wall time less the time stopped and the time held |
| Clock.HoldIsCeiling | lib/clock/src/clock.cpp:146-169 | once a hold is set, no alternation of starts and stops ever shows a later time |
| Clock.HoldGuardMissesExactlyWhen | lib/clock/src/clock.cpp:150-156 | exactly which new holds are let through while one is in progress; only ones after a hold before T-0 |
| Clock.SetHoldWhileHoldingJumps | lib/clock/src/clock.cpp:150-168 | a concrete clock whose display jumps by 0.1 s |
| Clock.SetShowsItsArgumentExactlyWhen | lib/clock/src/clock.cpp:189-202 | a stopped clock that is set shows what was asked for if and only if that can be stored |
| Clock.ToStr | lib/clock/src/clock.cpp:275-310 | the sign and the padded hours, minutes and seconds and the unpadded milliseconds; the argument keeps only the milliseconds |
| Clock.PartsGiveTimeBack | lib/clock/src/clock.cpp:284-306 | read as numbers, the parts add up to the time again |

## Left out

- Signals, the remapping of the nonce and the reserved nonce 0: operating-system effects; nonces in the step system do
  not wrap, so runs are shorter than 2^32 writes. The classes and `Recency` do wrap.
- The scan of all nonces inside a read lock is one step of `Protocol`; nothing can change them meanwhile, and its loop is
  `Handle.TelemetryShm.Refresh`.
- Telemetry.UpdateIsSnapshot: `remove_all` is not a step of `Protocol`, and each process has a handle of its own;
  `Viewer.ReaddedIsCurrentExactlyWhen` says what tracking again does.
- Telemetry.NoLostWakeup: is about writes that wake; `LostWake.SleepsThroughExactlyWhen` says what `clear` does.
- LostWake.SleepsThroughExactlyWhen: a flush counts from the packet it has come to; `LostWake.LoneListenerIsMissed` and
  `LostWake.ClearIsMissed` show packets that are not virtual.
- LostWake.WokenExactlyWhenCovered: lists of more than 32 packets count as covering every bit; shifting past 32 bits is
  undefined in the source.
- Telemetry.SessionsSerialise: virtual packets are written by sessions only; direct calls of `write` and `clear` in
  `Protocol` are for the other packets. Sessions use `lock(true)`; `lock(false)` can keep a cached packet that others have
  changed since the last update, and is only modelled in `Writer.TelemetryWriter.Lock`.
- Handle, Viewer and Writer do not block: a call that would sleep on the futex reports it, and one that would have to
  wait for a semaphore is not described. Packets and viewer buffers are byte strings held in arrays, so two of them
  cannot alias; writer buffers are arrays updated in place.
- EndToEnd.WrittenIsRead: some packet of the measurement was written fewer than 2^31 - 1 writes before the update; for
  `Completion.EveryNumberGetsThrough` there are at most as many packets.
- Updating.UpdateByItself: is about calls that have the readers-writers protocol to themselves, as are those of `Solo`,
  `Waking` and `Completion`; with others inside, `Deadlock.NoDeadlock` says that somebody moves, not who.
- `latest_data` with every distance at 2^31 - 1 or more goes on with no place at all; `Recency.Latest` gives none.
- `more_recent_packet` and `packet_updated`: nobody in these cores calls them.
- Writer.TelemetryWriter.Flush: what the loggers return is a parameter; a logger is modelled by itself in `PacketLog`.
- Floating-point and string conversions, `parse_consts`, `NmShm`, triggers and sensor polynomials.
- Vcm.VehicleConfig.Init: the multicast address is accepted unread; entries of a failed reading are not described.
- Controller.EngineController.Receive: telemetry packets of the output states and the screen output are left out.
- Engine.AcceptedIsPrefixOfSent: for runs of fewer than 2^31 steps, with old datagrams numbered fewer than 2^31 back, so
  that numbers stay unambiguous; the same bounds hold for `Engine.FooledExactlyWhen`, and `Turns` counts the steps of all
  turns together. With a command left over, a run can accept what nobody in it has sent: `Engine.LeftoverFools`.
- Turns.TurnsMeetHypothesis: from a start with nothing in flight; a client that is killed, or fails to queue its command,
  takes no turn.
- Commanding.TimeoutsTakeTheirTime: for readings of a clock that does not wrap around within the wait.
- Commanding.Execute: one command is one event here; sending and waiting are `Engine` and `Commanding.WaitForAck`. When a
  command times out for good the program ends without giving back its program resource.
- Reading a program file into events, and macros.
- Xbee.XbeeReceiver.RxComplete: frames whose contents and checksum exceed the 2048-byte buffer, for which the receiver
  asks for more bytes than the buffer holds, and the state that skips the rest of them; a receive frame shorter than its
  own prefix is only recorded as such.
- `xb_at_cmd` copies its parameter to the offset of the other frame type and is not modelled.
- PacketLog.PacketLogger.LogPacket: records above 2048 bytes are refused by the contract; the source has no check.
- Dlp.ReadQueue: the text queue with its line limit, failing reads and the waiting time while logging is off.
- Clock.ShowsWhatIsMeant: what happens beyond its guard is what the other rows of `Clock` are about.
- Clock.CountdownClock.ParseCmd: each command is atomic, although the source samples the time before it takes the lock;
  arguments near the limits of 64 bits.
- Sockets, queues, files, shared-memory keys, forking, user interfaces and scripts.
