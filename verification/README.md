# Verified model of iroh-ble-transport

The crate `iroh-ble-transport` carries QUIC datagrams over Bluetooth Low Energy. This
project models the four parts of it that hold its hard guarantees as step systems and
proves what every run of them keeps. It is written for Dafny 4.11;
`dafny verify dfyconfig.toml` checks all of it.

**Reliable channel** (`Wire`, `Fragmentation`, `Arq`, `ArqLink`, `ArqOneWay`,
`ArqTwoWay`, `ArqStaleAck`, `ArqProgress`, `ReliableChannel`, `SendLoop`, `Mtu`). A Selective-Repeat ARQ
with 4-bit sequence numbers and a window of 6. `Arq` gives the channel's operations as
functions of its state; `ReliableChannel` is the object with its loops, proved equal to
them.
`ArqLink` puts two channels on two lossy FIFO links, with unbounded indices as history
variables, and proves when the real state refines them; `ArqOneWay` shows that data in
one direction always does and adds progress. With data both ways the guarantee fails. A
retransmission carries the ACK bits of its first transmission unless a new ACK happens
to be pending, so an ACK 10 or more behind can be taken for a new one and release
fragments that were never received; `ArqLink` calls such a delivery misled and proves
that nothing else breaks the refinement. Enough of them let a fragment pass for an
earlier one, which `ArqLink` calls an aliased delivery and proves to be the only way the
receiver goes wrong. Misled deliveries are also what costs progress: `ArqTwoWay` proves
that a run without one can always be completed in both directions, and that what a
misled delivery released without a copy left on the air stalls the receiver until a
fragment is mistaken for it. `ArqStaleAck` gives a run in which a datagram is delivered
out of order, and another in which the link wedges for good. `ArqProgress` ties the
channel's clocks and queues to the run, and `SendLoop` gives the retransmission schedule
exactly.

**Peer registry and device lanes** (`Peer`, `RegistrySpec`, `Monitor`, `RegistryRun`,
`RegistryTheorems`, `ActionLaws`, `PhaseLaws`, `SendLaws`, `PeerLife`, `UpgradeOnce`,
`DedupPass`, `VerifiedPrefixes`, `PeerRegistry`, `Lanes`, `LaneSafety`, `Cleanup`,
`LaneTable`). `RegistrySpec` is the registry as a function from commands to actions;
`PeerRegistry` is the object whose handlers and loops are proved to compute it.
`Monitor` is a per-device automaton that accepts exactly the disciplined action
sequences; every handler is proved to stay within it. `ActionLaws`, `PhaseLaws` and
`SendLaws` say the other half, what every handler has to do, as conditions on the entry
before the step. `LaneSafety` composes the registry, its action queue and the lanes'
workers, and carries the discipline over to the native operations that actually run;
`Cleanup` proves that every link that ends is taken down there.

**Routing table** (`Identity`, `Dedup`, `RoutingSpec`, `RoutingRun`, `Convergence`,
`Promotion`, `Tombstones`, `RoutingTable`). `RoutingRun` is the table under the driver's pipe-opening protocol, each
lock section one step. `Promotion` gives the promotion rule from the pools alone and
`Convergence` runs two tables side by side. The comment in
`driver.rs` that the pools never reference a pipe that does not exist is not quite true:
a handshake that completes between the two evictions leaves such a route.
`RoutingRun.LateRunDangles` is a run that does, `RoutingRun.DanglingExactly` says exactly
when it happens, and `ConnRace.DanglingRoute` what becomes of it.

**Connection registry** (`ConnsSpec`, `ConnRace`, `ConnectionRegistry`). `ConnsSpec`
characterises the memory of closed pipes by the full history of closes. `ConnRace`
interleaves handshakes, pipe teardown and the routing table in every order.

Conventions: times are integers in milliseconds; a device identifier is a number that
stands for its address text under the same order; a hash map's iteration order is a
parameter of the operations that depend on it; a pipe's free queue space is fixed while
one command is handled; an endpoint identifier is 32 opaque bytes in lexicographic order.

## Model

| member | source | states |
|---|---|---|
| `Wire.ParseDataMsg` | crates/iroh-ble-transport/src/transport/reliable.rs:291-322 | parsing an encoded data message returns its sequence number, flags, payload and ACK; the canary is stripped |
| `Wire.ParsePureAck` | crates/iroh-ble-transport/src/transport/reliable.rs:291-322 | a pure ACK parses as an ACK without data |
| `Wire.ParseConverse` | crates/iroh-ble-transport/src/transport/reliable.rs:291-322 | the converse: any value with a body that parses is the encoding of the parts it parses to, but for the unused bits of the two header bytes |
| `Wire.SetAckDataMsg` | crates/iroh-ble-transport/src/transport/reliable.rs:86-88 | overwriting the ACK of an encoded message gives the message encoded with that ACK, everything else unchanged |
| `Fragmentation.RoundTrip` | crates/iroh-ble-transport/src/transport/reliable.rs:382-421 | for any datagrams and any chunk size per datagram, reassembling all fragments in order returns exactly the datagrams of 1 to 1472 bytes, in order |
| `Fragmentation.PrefixRoundTrip` | crates/iroh-ble-transport/src/transport/reliable.rs:382-421 | after any number of fragments the datagrams handed up are a prefix of those; never a partial one |
| `Fragmentation.FeedDatagram` | crates/iroh-ble-transport/src/transport/reliable.rs:388-420 | the fragments of one datagram reset whatever reassembly was under way and deliver it exactly if its length is 1 to 1472; overflow drops it whole |
| `Fragmentation.FragmentsFit` | crates/iroh-ble-transport/src/transport/reliable.rs:601-627 | every encoded fragment, header and canary included, fits the chunk size it was cut for |
| `Fragmentation.ChunksCarryAll` | crates/iroh-ble-transport/src/transport/reliable.rs:647-669 | the payloads of the fragments, concatenated, are the datagram |
| `Arq.WindowOkReceive` | crates/iroh-ble-transport/src/transport/reliable.rs:291-380 | for arbitrary input bytes: in-flight numbers are exactly send_base up to send_next in order and at most 6, buffered numbers are distinct at distance 1 to 5, a pending ACK is recv_next - 1 |
| `Arq.WindowOkSend` | crates/iroh-ble-transport/src/transport/reliable.rs:581-642 | the same window invariant is kept by choosing what to send |
| `Arq.WindowOkRetransmit` | crates/iroh-ble-transport/src/transport/reliable.rs:518-529 | the same window invariant is kept by retransmitting |
| `Arq.DrainKeeps` | crates/iroh-ble-transport/src/transport/reliable.rs:429-441 | draining the out-of-order buffer keeps the receive window, touches nothing of the sender and ends with nothing buffered at recv_next |
| `ArqLink.WindowExact` | crates/iroh-ble-transport/src/transport/reliable.rs:90-95 | modulo-16 comparison, distance and window membership agree with unbounded indices for a fragment from 10 behind to 5 ahead of recv_next |
| `ArqLink.AckReleases` | crates/iroh-ble-transport/src/transport/reliable.rs:323-345 | what the cumulative ACK test releases for every ACK position up to the last fragment sent, however stale |
| `ArqLink.AckExact` | crates/iroh-ble-transport/src/transport/reliable.rs:323-345 | it releases exactly the newly acknowledged fragments when the ACK is at most 9 behind send_base |
| `ArqLink.StaleAckExactly` | crates/iroh-ble-transport/src/transport/reliable.rs:323-345 | an ACK for a position already passed is taken for a new one if and only if it is 10 to 15 behind modulo 16 and enough fragments are in flight to reach it |
| `ArqLink.MisledExactly` | crates/iroh-ble-transport/src/transport/reliable.rs:323-345 | a delivery is misled if and only if its ACK is for a passed position, is taken for a new one, and releases fragments the other end does not have |
| `ArqLink.InvAct` | crates/iroh-ble-transport/src/transport/reliable.rs:291-441 | from any state that refines the unbounded protocol, a step keeps the refinement if and only if it is not a misled delivery |
| `ArqLink.InvRun` | crates/iroh-ble-transport/src/transport/reliable.rs:291-441 | with data both ways a run over two lossy FIFO links refines the unbounded protocol at every point if and only if no delivery of it is misled |
| `ArqLink.TracksRun` | crates/iroh-ble-transport/src/transport/reliable.rs:346-441 | at every point of a run each receiver holds exactly the first fragments sent, reassembled and buffered, if and only if no delivery is aliased, that is, no fragment beyond the window passes modulo 16 for one inside it that is missing |
| `ArqLink.TwoWayPrefix` | crates/iroh-ble-transport/src/transport/reliable.rs:382-441 | with data both ways and no aliased delivery, each application has received a prefix of the deliverable datagrams accepted by the other side |
| `ArqLink.UnmisledIsUnaliased` | crates/iroh-ble-transport/src/transport/reliable.rs:323-378 | an aliased delivery is always preceded by a misled one |
| `ArqLink.NothingLost` | crates/iroh-ble-transport/src/transport/reliable.rs:605-624 | every fragment sent and not yet taken by the receiver is still in flight, byte for byte as first encoded |
| `ArqLink.TwoWaySafety` | crates/iroh-ble-transport/src/transport/reliable.rs:581-669 | with data both ways and no misled delivery, each application has received a prefix of the deliverable datagrams accepted by the other side, and neither sender has released what the other does not have |
| `ArqOneWay.NeverMisled` | crates/iroh-ble-transport/src/transport/reliable.rs:323-345 | with data one way no delivery can be misled, whatever the schedule |
| `ArqOneWay.RangesReached` | crates/iroh-ble-transport/src/transport/reliable.rs:90-95 | in every reachable one-way state every fragment on the air lies in [recv_next - 10, recv_next + 5] and every ACK is at most 9 behind send_base |
| `ArqOneWay.Safety` | crates/iroh-ble-transport/src/transport/reliable.rs:291-441 | over every schedule of sends, losses, retransmissions and ACKs the delivered datagrams are a prefix, in order and without repeats, of the accepted ones of 1 to 1472 bytes; the window never exceeds 6 |
| `ArqOneWay.HeadProgress` | crates/iroh-ble-transport/src/transport/reliable.rs:423-441 | from every one-way state with the oldest unacknowledged fragment first on the air, taking it and delivering the ACK it provokes, behind whatever ACKs are on the air, advances send_base, whether or not the receiver already had it |
| `ArqOneWay.Progress` | crates/iroh-ble-transport/src/transport/reliable.rs:518-529 | from every one-way state with something in flight, whatever is on the air, retransmitting the oldest fragment and delivering both channels in order advances send_base |
| `ArqProgress.ProgressExactly` | crates/iroh-ble-transport/src/transport/reliable.rs:323-345 | over every two-way run, misled deliveries included: the channel's time of last progress is when something was last released or last sent into an empty window, and its creation before that; the window invariant holds throughout |
| `ArqProgress.DeadlineExactly` | crates/iroh-ble-transport/src/transport/reliable.rs:178-188 | over every run: an ACK deadline exists exactly while an ACK is owed and is 15 ms after the moment from which it has been owed, however many fragments arrive meanwhile |
| `ArqProgress.AckOnTime` | crates/iroh-ble-transport/src/transport/reliable.rs:581-642 | over every run: a poll sends one message exactly if the link is not dead and a fragment fits the window or an ACK has been owed for 15 ms; the message carries the owed ACK, for everything received in order, and settles it |
| `ArqProgress.DataOwesAck` | crates/iroh-ble-transport/src/transport/reliable.rs:346-380 | over every unmisled run: a data fragment that arrives leaves an ACK owed, new, out of order or repeated, unless it repeats a buffered one and none was owed |
| `ArqProgress.AcceptsExactly` | crates/iroh-ble-transport/src/transport/reliable.rs:262-281 | over every run: a datagram is accepted exactly if fewer than 32 datagrams not yet cut and fragments not yet sent wait |
| `ArqTwoWay.TwoWayNeverWedged` | crates/iroh-ble-transport/src/transport/reliable.rs:518-529 | with data both ways every run without a misled delivery, and with neither end given up, extends without a misled delivery to one in which everything deliverable accepted at either end has been delivered at the other |
| `ArqTwoWay.OneHeadSafe` | crates/iroh-ble-transport/src/transport/reliable.rs:605-624 | with fragments in flight at both ends, retransmitting the oldest one of at least one end cannot mislead the other, although both carry the ACKs of their first transmission |
| `ArqTwoWay.LostForGood` | crates/iroh-ble-transport/src/transport/reliable.rs:346-378 | once a fragment the other end lacks is released and no copy is on the air, the other end's position and all it has delivered stay as they are in every continuation without an aliased delivery |
| `ArqTwoWay.MisledLoses` | crates/iroh-ble-transport/src/transport/reliable.rs:323-345 | a misled delivery leads into exactly such a state unless a copy of the awaited fragment is still on the air |
| `ArqTwoWay.NeverWedged` | crates/iroh-ble-transport/src/transport/reliable.rs:518-529 | with data one way every run whose ends have not given up extends to full delivery, whatever the schedule so far |
| `ArqStaleAck.TwoWayCorrupts` | crates/iroh-ble-transport/src/transport/reliable.rs:605-624 | the two-way guarantee is false in general: a run of the model in which stale ACKs on retransmissions release twelve lost fragments and the twelfth datagram delivered is the twenty-eighth accepted, so the delivered datagrams are no prefix |
| `ArqStaleAck.TwoWayWedges` | crates/iroh-ble-transport/src/transport/reliable.rs:518-529 | a misled delivery can cost progress for good: a run after which 17 datagrams are accepted and 11 delivered in every continuation, aliased deliveries included |
| `ReliableChannels.ReliableChannel.ReceiveFragment` | crates/iroh-ble-transport/src/transport/reliable.rs:291-380 | the object's new state is the specified reception of the bytes; window invariant kept |
| `ReliableChannels.ReliableChannel.AcceptAndDeliver` | crates/iroh-ble-transport/src/transport/reliable.rs:382-427 | the object's state after accepting the fragment at recv_next: reassembly, delivery, advance and ACK |
| `ReliableChannels.ReliableChannel.DrainRecvBuf` | crates/iroh-ble-transport/src/transport/reliable.rs:429-441 | the loop drains exactly the run of buffered fragments that has become consecutive |
| `ReliableChannels.ReliableChannel.FragmentInto` | crates/iroh-ble-transport/src/transport/reliable.rs:647-669 | the loop queues exactly the specified fragments of the datagram at the current chunk size |
| `ReliableChannels.ReliableChannel.NextSendAction` | crates/iroh-ble-transport/src/transport/reliable.rs:581-642 | the chosen action and the new state are the specified ones; window invariant kept |
| `ReliableChannels.ReliableChannel.RetransmitOldest` | crates/iroh-ble-transport/src/transport/reliable.rs:518-529 | the oldest fragment, its ACK field overwritten only if an ACK is pending |
| `SendLoop.Timing` | crates/iroh-ble-transport/src/transport/reliable.rs:456-579 | over every run with exact timers: the timeout is 300 ms doubled at most four times, at most four retransmissions between two progress events, the i-th no earlier than 300 (2^i - 1) ms after the last progress, and the loop never sleeps past the silence deadline |
| `SendLoop.FullTimerResends` | crates/iroh-ble-transport/src/transport/reliable.rs:518-554 | in every run a timer that fires at its full length resends the oldest fragment at that very moment and doubles the timeout, the ceiling notwithstanding; a shorter one does neither |
| `SendLoop.ExactSchedule` | crates/iroh-ble-transport/src/transport/reliable.rs:484-554 | from any reachable beginning of a silence at t, with nothing but exact timers: retransmissions at t+300, t+900, t+2100 and t+4500 ms, each made when it is due and none else, and silence declared at t+6000 exactly, after all four |
| `SendLoop.FallsSilent` | crates/iroh-ble-transport/src/transport/reliable.rs:491-501 | such a run exists from every beginning of a silence: left alone the loop makes all four retransmissions and gives the link up |
| `SendLoop.SettlesExactly` | crates/iroh-ble-transport/src/transport/reliable.rs:475-516 | in every run a loop with nothing to send idles if nothing is in flight, gives up after 6 s without progress, and otherwise sleeps until the first of ACK deadline, silence deadline and a retransmission 300 ms away, doubled once per retransmission since the last progress |
| `SendLoop.WakesExactly` | crates/iroh-ble-transport/src/transport/reliable.rs:518-579 | in every run a notified or idle loop runs again, an idle one with the timeout reset; a wake does nothing else |
| `SendLoop.CeilingUnreached` | crates/iroh-ble-transport/src/transport/reliable.rs:102-104 | the timeout never exceeds 4.8 s, so the 5 s ceiling is never reached |
| `SendLoop.SilenceIsReal` | crates/iroh-ble-transport/src/transport/reliable.rs:491-501 | in every run death by silence is declared only with a fragment in flight and at least 6 s since the last progress |
| `Mtu.ResolveChunkSize` | crates/iroh-ble-transport/src/transport/mtu.rs:58-89 | for any readings and clock: the first sane reading before the deadline decides, else 509; the result is 21 to 509 |
| `Mtu.MessagesFitMtu` | crates/iroh-ble-transport/src/transport/mtu.rs:16-52 | with a sane reading every data message of every datagram, ATT overhead included, fits the negotiated MTU |
| `Monitor.ConnectSucceededOk` | crates/iroh-ble-transport/src/transport/registry.rs:773-866 | from any entry that agrees with its lane, only allowed actions are emitted (at most one upgrade, no work for a closed lifecycle) and agreement is kept |
| `Monitor.ConnectFailedOk` | crates/iroh-ble-transport/src/transport/registry.rs:869-931 | the failed dial's cleanup names the activated lifecycle before it is retired; agreement is kept |
| `Monitor.InboundGattOk` | crates/iroh-ble-transport/src/transport/registry.rs:934-1115 | inbound bytes restart or take over a pipe under the right lifecycle; agreement is kept |
| `Monitor.CentralDisconnectedOk` | crates/iroh-ble-transport/src/transport/registry.rs:1162-1247 | a disconnect in any phase closes at most the activated lifecycle, once; agreement is kept |
| `Monitor.TickOk` | crates/iroh-ble-transport/src/transport/registry.rs:1290-1422 | every timeout branch of the tick emits only allowed actions; agreement is kept |
| `Monitor.L2capOpenedOk` | crates/iroh-ble-transport/src/transport/registry.rs:1586-1672 | an upgrade that completes moves the pipe once, a stale one changes nothing; agreement is kept |
| `ActionLaws.EveryActionExactly` | crates/iroh-ble-transport/src/transport/registry.rs:113-266 | for every handler and every entry: a dial, a pipe start, a native cleanup, an upgrade, a swap, a version read, a cache refresh and a retirement are each emitted if and only if a condition on the entry before the step holds, with the lifecycle, attempt, generation and path that condition implies |
| `PhaseLaws.FateExactly` | crates/iroh-ble-transport/src/transport/registry.rs:113-266 | for every handler and every entry: the next phase, role, upgrade and resume flags and dial target as conditions on the entry before the step; a step that none of them names leaves the phase alone |
| `PhaseLaws.ConnectUpgrades` | crates/iroh-ble-transport/src/transport/registry.rs:773-866 | a dial that succeeds asks for the L2CAP upgrade exactly if policy prefers it, no upgrade failed, this side dialed, the identity is known, and no other link of the peer is up or the tiebreak keeps this one |
| `RegistryRun.HandleGood` | crates/iroh-ble-transport/src/transport/registry.rs:113-266 | every command in every consistent state emits only actions the per-device automata accept and ends in a consistent state |
| `LaneSafety.CleanupNamesLastActivation` | crates/iroh-ble-transport/src/transport/registry.rs:1230-1240 | in every run of registry, action queue and lanes, each cleanup about to be executed names the lifecycle last activated on its device, which still has its lane, and was not cleaned up before |
| `LaneSafety.EveryCleanupRuns` | crates/iroh-ble-transport/src/transport/driver.rs:178-221 | on every device the native disconnects started are a prefix, in order, of the cleanups executed, and exactly those once the lane has drained or been collected; each lifecycle at most once |
| `LaneSafety.NativeOrder` | crates/iroh-ble-transport/src/transport/driver.rs:178-221 | native operations follow activation order, and nothing but a cache refresh follows a disconnect of the same lifecycle |
| `LaneSafety.TeardownBeforeRedial` | crates/iroh-ble-transport/src/transport/driver.rs:320-386 | whatever runs for a newer lifecycle runs after the disconnect of every older one that was asked for |
| `LaneSafety.StartsExactly` | crates/iroh-ble-transport/src/transport/driver.rs:189-215 | in every run the job a worker takes starts if and only if it is a disconnect, or its lifecycle is the one last activated on the device by the registry's actions and has not been retired; anything else is dropped |
| `Cleanup.CommandCloses` | crates/iroh-ble-transport/src/transport/registry.rs:904-911 | in every consistent state a command that ends a dial in progress or a connection asks for the native cleanup of that lifecycle: current ConnectFailed, Stalled, Forget, CentralDisconnected, current VersionMismatch, a replaced address, or a tick after 45 silent seconds |
| `Cleanup.EndedLinkIsTakenDown` | crates/iroh-ble-transport/src/transport/registry.rs:1230-1240 | over every run after such a command: once its actions are executed the cleanup has been asked for, once the lane has drained it has run, and nothing of a newer lifecycle ran on the device before it |
| `LaneTables.LaneTable.Activate` | crates/iroh-ble-transport/src/transport/driver.rs:320-346 | the retain loop drops exactly the idle, retired lanes of other devices; the activation is queued behind everything already there |
| `LaneTables.LaneTable.ExecuteAction` | crates/iroh-ble-transport/src/transport/driver.rs:399-600 | the lane part of executing any action is the specified one |
| `LaneTables.LaneTable.TakeJob` | crates/iroh-ble-transport/src/transport/driver.rs:178-221 | the worker's turn: ownership change, start, or drop, as specified |
| `RegistryTheorems.StaleCompletionsIgnored` | crates/iroh-ble-transport/src/transport/registry.rs:880-895 | once a device has moved past a lifecycle, any of the five tagged completions carrying it changes no field and emits nothing in every later state, through retries, teardown and re-creation |
| `RegistryTheorems.HandleAdvances` | crates/iroh-ble-transport/src/transport/registry.rs:81-88 | every command only raises the lifecycle counter, and a peer keeps its lifecycle or gets one never used before |
| `RegistryTheorems.LifecyclesUnique` | crates/iroh-ble-transport/src/transport/registry.rs:2021-2036 | in every reachable state no two peers share a lifecycle and all are below the counter |
| `UpgradeOnce.OneUpgradePerLifecycle` | crates/iroh-ble-transport/src/transport/registry.rs:362-412 | over every run any two upgrade requests, to one device or to two, name different lifecycles, both with upgrade generation 1 |
| `RegistryTheorems.ReachableEntry` | crates/iroh-ble-transport/src/transport/registry.rs:1598-1670 | in every reachable state: upgrade generation at most 1, upgrading implies GATT with that one upgrade, Connected agrees with the entry's generation, no pipe is newer than it, dial attempts are below 15, Handshaking is never entered |
| `PeerLife.BackoffRange` | crates/iroh-ble-transport/src/transport/registry.rs:2210-2213 | each failure backoff is 1 s to 30 s and never shrinks with the attempt |
| `PeerLife.BackoffDoubles` | crates/iroh-ble-transport/src/transport/registry.rs:2210-2213 | the first failure backoff is 1 s and each next one doubles the one before, up to 30 s |
| `PeerLife.FailureCharged` | crates/iroh-ble-transport/src/transport/registry.rs:880-931 | for every handler: a failure is charged only to a dial in progress, ends its lifecycle, and moves one attempt closer to Dead(MaxRetries) |
| `PeerLife.ChargesExactly` | crates/iroh-ble-transport/src/transport/registry.rs:880-931 | for every handler: a failure is charged if and only if the dial in progress fails or loses its link |
| `PeerLife.RetryBudget` | crates/iroh-ble-transport/src/transport/registry.rs:1193-1223 | at any point of any run a charged failure hits a dial in progress below the limit, and the next one charged to that device hits a newer lifecycle |
| `PeerLife.SendOrder` | crates/iroh-ble-transport/src/transport/registry.rs:599-770 | the life-long order of generations and datagrams from any point of any run of the registry |
| `SendLaws.SendExactly` | crates/iroh-ble-transport/src/transport/registry.rs:599-770 | in every consistent state a datagram is answered WouldBlock if and only if the peer is dead, draining without resume, connected under another generation, or its live pipe is full once the line before it is moved; otherwise it is last in the line or moved behind it, and answered Accepted or not yet |
| `SendLaws.NoneRefusedWhileDialing` | crates/iroh-ble-transport/src/transport/registry.rs:629-660 | from any point of any run, as long as the peer stays in the phases before its pipe, every datagram submitted for it is accepted |
| `SendLaws.LineExactly` | crates/iroh-ble-transport/src/transport/registry.rs:2050-2088 | for every handler: the waiting line is given up exactly on teardown, forgetting, mismatch, lost dial or adapter off, every sender in it then told in order but for the last two; any other step moves a prefix of the line into the pipe and keeps the rest |
| `SendLaws.ReadyExactly` | crates/iroh-ble-transport/src/transport/registry.rs:1546-1584 | a ready pipe is installed if and only if it has the latest generation, and then takes the longest part of the line that fits |
| `SendLaws.TickExactly` | crates/iroh-ble-transport/src/transport/registry.rs:1290-1422 | a tick gives up, dials and tears down each if and only if a condition on phase and clock holds: drain over 5 s without resume or restore over 120 s; due reconnect or expired window or resumed drain with datagrams; connected pipe silent over 45 s. Otherwise it changes nothing |
| `SendLaws.CollectsExactly` | crates/iroh-ble-transport/src/transport/registry.rs:1290-1422 | a tick drops an entry if and only if it has been dead for more than 60 s |
| `PeerLife.OneChargePerLifecycle` | crates/iroh-ble-transport/src/transport/registry.rs:1193-1223 | over every run two failures charged to a device, whichever of ConnectFailed and CentralDisconnected charges them, are charged to different lifecycles |
| `PeerLife.GenerationsGrow` | crates/iroh-ble-transport/src/transport/registry.rs:1546-1584 | for every handler: a started pipe has exactly the next generation, at most one is started, and a ready pipe is installed only if it is the latest |
| `PeerLife.LifeInOrder` | crates/iroh-ble-transport/src/transport/registry.rs:623-770 | over every run, while a device keeps its entry: pipes are started with strictly growing generations, and the datagrams moved into pipes followed by those still waiting are the ones waiting at the start followed by those accepted, in order, some left out and none repeated |
| `DedupPass.DedupKeepsOne` | crates/iroh-ble-transport/src/transport/registry.rs:275-360 | for any peer map and walking order: the connections of the verified peer go down to exactly one if there was one and to none otherwise, and the survivor has the winning role whenever some connection had it, and else is the one connected last |
| `DedupPass.WalkLoses` | crates/iroh-ble-transport/src/transport/registry.rs:2050-2088 | a walk of the dedup pass keeps every role and takes the connection from exactly the losers it visits |
| `DedupPass.SurvivorUpgrades` | crates/iroh-ble-transport/src/transport/registry.rs:362-412 | after a verification the surviving connection is upgrading exactly if it was, or policy prefers L2CAP, this side dialed it, it is on GATT and no upgrade of it failed |
| `DedupPass.OneSideDefers` | crates/iroh-ble-transport/src/transport/registry.rs:523-527 | two nodes that see each other advertise never both wait for the other to dial; of two strangers exactly one waits, and the link the other dials is the one both tiebreakers keep |
| `DedupPass.OneSideUpgrades` | crates/iroh-ble-transport/src/transport/registry.rs:1432-1443 | the two ends of one link never both ask for the upgrade; the dialing end does exactly if it is the only link or the one the tiebreak keeps |
| `VerifiedPrefixes.KnownWasVerified` | crates/iroh-ble-transport/src/transport/registry.rs:275-297 | over every run an identity is known to the registry or carried by a peer only if a verification named it, and it is known under its own prefix |
| `VerifiedPrefixes.ForgetsExactly` | crates/iroh-ble-transport/src/transport/registry.rs:1424-1430 | for every command but a verification or an advertisement: a known identity is forgotten if and only if the command is a tick or ends something for good and no living peer carries the identity afterwards |
| `VerifiedPrefixes.StampsExactly` | crates/iroh-ble-transport/src/transport/registry.rs:275-297 | a verification adds exactly the identity it names, after forgetting what a replaced address leaves without a carrier |
| `VerifiedPrefixes.RevivesExactly` | crates/iroh-ble-transport/src/transport/registry.rs:551-596 | an advertisement adds an identity exactly if it brings back a peer given up for retries or drained that had been verified under that prefix |
| `VerifiedPrefixes.NoSecondLink` | crates/iroh-ble-transport/src/transport/registry.rs:510-541 | while a verified peer is connected, an advertisement of its prefix from any address starts nothing, enters nobody and changes no phase |
| `PeerRegistries.PeerRegistry.HandleCommand` | crates/iroh-ble-transport/src/transport/registry.rs:113-266 | handlers that update entries field by field and loops over the peer map compute the specified state and actions for every command |
| `PeerRegistries.PeerRegistry.LinkLost` | crates/iroh-ble-transport/src/transport/registry.rs:1162-1247 | a disconnect in place: resumed drain, charged dial or teardown with its cleanup, as specified |
| `PeerRegistries.PeerRegistry.GattFragment` | crates/iroh-ble-transport/src/transport/registry.rs:934-1115 | inbound bytes in place: restart, takeover or nothing, as specified |
| `PeerRegistries.PeerRegistry.TickPeer` | crates/iroh-ble-transport/src/transport/registry.rs:1290-1422 | every timeout branch of one peer in place, as specified |
| `PeerRegistries.PeerRegistry.SendLive` | crates/iroh-ble-transport/src/transport/registry.rs:623-770 | a datagram for the live generation goes behind everything still waiting, or is turned away, as specified |
| `PeerRegistries.PeerRegistry.PickWinner` | crates/iroh-ble-transport/src/transport/registry.rs:310-346 | the two loops find the first candidate in the surviving role, else the unique most recently connected one |
| `PeerRegistries.PeerRegistry.StampAll` | crates/iroh-ble-transport/src/transport/registry.rs:275-297 | the loop stamps exactly the exact device and the entries of the prefix |
| `PeerRegistries.PeerRegistry.PruneVerified` | crates/iroh-ble-transport/src/transport/registry.rs:1424-1430 | the loop keeps exactly the verified prefixes that some living entry still carries |
| `PeerRegistries.PeerRegistry.Drain` | crates/iroh-ble-transport/src/transport/registry.rs:2050-2088 | teardown of one peer: retired lifecycle, every waiting datagram acknowledged as broken in order, pipe dropped |
| `PeerRegistries.PeerRegistry.Flush` | crates/iroh-ble-transport/src/transport/registry.rs:1546-1584 | the loop moves the longest prefix of the waiting datagrams that fits the pipe and keeps the rest |
| `Dedup.TiebreakersAgree` | crates/iroh-ble-transport/src/transport/dedup.rs:35-61 | the registry keeps a role exactly when routing calls that role's pipe higher-dialed |
| `Dedup.DialerSymmetric` | crates/iroh-ble-transport/src/transport/routing.rs:157-166 | both ends of a pipe compute the same dialer |
| `DedupPass.SameLinkSurvives` | crates/iroh-ble-transport/src/transport/dedup.rs:35-61 | two nodes with one link each way: after each registry has verified the other, they hold the two ends of one and the same link, the one both routing tables call higher-dialed |
| `RoutingRun.HandleDiscipline` | crates/iroh-ble-transport/src/transport/routing.rs:768-884 | over every run of the driver's protocol: reservations and reserved handles are mutual inverses, every handle is non-zero and minted once, none is given to a second pipe |
| `RoutingRun.OnePlace` | crates/iroh-ble-transport/src/transport/routing.rs:329-385 | a handle is in at most one of reservation, driver's hand, live pipe, tombstone |
| `RoutingRun.NoCollision` | crates/iroh-ble-transport/src/transport/routing.rs:858-884 | the driver never registers a reserved handle that a live pipe carries, so the debug assertion cannot fire |
| `RoutingRun.PoolDiscipline` | crates/iroh-ble-transport/src/transport/routing.rs:925-1029 | over every run: pending pipes are live, a routable pipe is not pending, belongs to the endpoint it authenticated as, and records the dialer of its own direction |
| `RoutingRun.DanglingExactly` | crates/iroh-ble-transport/src/transport/driver.rs:688-712 | over every run: the table routes to a pipe that is gone if and only if that pipe was promoted between leaving the pools and being evicted, is gone, and neither has its connection closed nor another pipe taken over since |
| `RoutingRun.LateRunDangles` | crates/iroh-ble-transport/src/transport/driver.rs:688-712 | such a run exists, for any two endpoints |
| `RoutingRun.PendingIsLive` | crates/iroh-ble-transport/src/transport/routing.rs:634-668 | the pending pool never holds a pipe that is leaving or gone |
| `Promotion.HandshakeExactly` | crates/iroh-ble-transport/src/transport/routing.rs:925-1029 | over every run: a handshake on a live pipe is refused if and only if the pipe is lower-dialed and another candidate for the endpoint, its route or a live pipe pending toward it, is higher-dialed; otherwise the route is that pipe, every other candidate leaves both pools, and nothing else changes |
| `Promotion.LatestPromotedIsRoute` | crates/iroh-ble-transport/src/transport/routing.rs:1058-1079 | over every run the latest pipe that was not outranked is the route, until it leaves, its connection closes or another handshake of that endpoint completes |
| `Promotion.LowAmongLow` | crates/iroh-ble-transport/src/transport/routing.rs:1058-1079 | with only lower-dialed candidates no handshake is refused, so a peer that dials again moves to its new pipe |
| `Promotion.PromiseKept` | crates/iroh-ble-transport/src/transport/driver.rs:648-671 | a pipe opened for an endpoint whose prefix holds a reservation gets the reserved handle and enters the pending pool under the promised endpoint, amid any traffic that is not another opening |
| `Promotion.PromiseKeptByHint` | crates/iroh-ble-transport/src/transport/driver.rs:648-671 | the same for a pipe of unknown target whose device the scan hint maps to a reserved prefix |
| `Promotion.ReservationStays` | crates/iroh-ble-transport/src/transport/routing.rs:768-790 | a reservation keeps its handle and endpoint through every event but a consumption |
| `Promotion.HintHolds` | crates/iroh-ble-transport/src/transport/routing.rs:427-466 | as long as a live pipe to one device carries the route to an endpoint, no advertisement moves the hint of its prefix to another device |
| `Promotion.HintRecorded` | crates/iroh-ble-transport/src/transport/routing.rs:427-466 | without such a route elsewhere every advertisement is recorded |
| `Tombstones.Remembers` | crates/iroh-ble-transport/src/transport/routing.rs:357-385 | in every run a pipe that is gone leaves a tombstone with its device and direction that counts every datagram still sent to it, for 30 s and through any events, unless younger ones push it out |
| `Tombstones.Forgets` | crates/iroh-ble-transport/src/transport/routing.rs:267-287 | after 30 s the first datagram sent to any pipe forgets it |
| `Convergence.HighStays` | crates/iroh-ble-transport/src/transport/routing.rs:925-1029 | after any sequence of promotions that includes a higher-dialed pipe, and as long as the higher-dialed pipe in use is not taken away, a higher-dialed pipe is routable |
| `Convergence.Settles` | crates/iroh-ble-transport/src/transport/routing.rs:925-1029 | if only one promoted pipe is higher-dialed and it stays up, it is the route, in any order of promotions and with the losing pipes torn down at any time |
| `Convergence.BothSettle` | crates/iroh-ble-transport/src/transport/routing.rs:1068-1079 | two nodes that share one higher-dialed link and any number of lower-dialed ones route over that same physical link as long as it stays up, in any order on each side, amid any other traffic and teardown of the others |
| `RoutingTables.Routing.Promote` | crates/iroh-ble-transport/src/transport/routing.rs:925-1029 | the contender and eviction loops compute the specified promotion: table, decision and list of pipes to tear down |
| `RoutingTables.Routing.EvictPipeState` | crates/iroh-ble-transport/src/transport/routing.rs:634-668 | the pipe leaves whichever pool holds it, and the result says whether one did |
| `RoutingTables.Routing.ReserveOutbound` | crates/iroh-ble-transport/src/transport/routing.rs:768-790 | idempotent per prefix; otherwise one fresh handle enters both maps |
| `RoutingTables.Routing.ConsumeReservationForDevice` | crates/iroh-ble-transport/src/transport/routing.rs:841-852 | the reservation of a prefix hinted for the device, if any, leaves both maps |
| `RoutingTables.Routing.PruneTombstones` | crates/iroh-ble-transport/src/transport/routing.rs:267-287 | only unexpired tombstones stay, at most 128, and every dropped one is no newer than every kept one |
| `ConnsSpec.CloseExact` | crates/iroh-ble-transport/src/transport/conns.rs:239-269 | recording a close keeps the memory exactly the unexpired last closes with fewer than 128 other pipes closed since, and always holds the close just recorded |
| `ConnsSpec.PruneMakesExact` | crates/iroh-ble-transport/src/transport/conns.rs:123-139 | pruning by age and by insertion order yields exactly the closes the history says should be remembered |
| `ConnRace.MemoryExact` | crates/iroh-ble-transport/src/transport/conns.rs:123-139 | over every run the closed memory is exact for the whole history of closes |
| `ConnRace.StrandedExactly` | crates/iroh-ble-transport/src/transport/conns.rs:172-205 | over every interleaving: a registered, open connection has been asked to close if and only if its pipe was closed after it registered or the memory still had a close of its pipe when it registered |
| `ConnRace.LateIsServed` | crates/iroh-ble-transport/src/transport/conns.rs:172-205 | a connection registering while its pipe's close is remembered is asked to close with the recorded code and reason |
| `ConnRace.EarlyIsServed` | crates/iroh-ble-transport/src/transport/hook.rs:112-163 | a connection registered before a close of its pipe is asked to close with that close's code and reason while it is open |
| `ConnRace.WatchDecides` | crates/iroh-ble-transport/src/transport/conns.rs:207-228 | over every run the watcher of a closed connection is told that its bucket is empty if and only if no other connection is registered under that endpoint and pipe, and then every one registered there in time has closed |
| `ConnRace.DanglingRoute` | crates/iroh-ble-transport/src/transport/driver.rs:688-712 | a route to a pipe that is gone belongs to an accepted connection that is still being registered, has closed or has been asked to, unless the memory of the close was lost before it registered |
| `ConnectionRegistries.ConnectionRegistry.Insert` | crates/iroh-ble-transport/src/transport/conns.rs:172-205 | registers the connection, or returns the cause to close it with |
| `ConnectionRegistries.ConnectionRegistry.ClosePipe` | crates/iroh-ble-transport/src/transport/conns.rs:239-269 | records the close and returns exactly the connections riding the pipe under any endpoint |
| `ConnectionRegistries.ConnectionRegistry.RemoveAndIsEmpty` | crates/iroh-ble-transport/src/transport/conns.rs:207-228 | removes one watch and says whether its bucket is now empty |
| `ConnectionRegistries.ConnectionRegistry.PruneClosed` | crates/iroh-ble-transport/src/transport/conns.rs:123-139 | the loop that drops the oldest closes keeps exactly the specified ones |

## Left out

- `Shutdown`: terminal, and aborting the lanes at process end loses queued work on purpose.
- Metrics, logging, snapshots, the peer store actions and adapter-state publishing: no property depends on them.
- `RestorePeripheral`, `RestartScan` and the listener restarts: actions outside any device lane.
- The inbound direction of data pipes (`rx_backlog`, delivery to the inbound queue) and the activity stamps other than the liveness reading a tick uses.
- L2CAP channel objects, their framing and I/O tasks, and the pipe supervisor's hand-over: easy framing and task wiring; a swap is an action without further effect.
- The mapping from platform disconnect causes to reasons: the command carries the reason.
- The jitter of the pending-dial window: the end of the window is a parameter of the advertisement.
- A connect that yields anything but a GATT channel: the driver's connect never does (`driver.rs:888-892`).
- Wakers: a wake is an event; nothing is claimed about every waker being woken.
- Integer overflow of lifecycle ids, handles, watch ids and close numbers (64 bits in the original): the model's counters are unbounded.
- Two endpoints that share a 12-byte key prefix: `NoteScanHint` refuses a hint if any of them is bound elsewhere, where the original looks at one of them only; the reservation maps are exact.
- Back-pressure of the channel that receives reassembled datagrams: delivery always succeeds.
- Completeness of the canary: a fragment cut to two bytes, or so that its last byte is 0x5A, passes the check; nothing is claimed about truncated fragments.
- ArqLink.TwoWaySafety: speaks about runs without a misled delivery, because beyond them the guarantee is false, as `ArqStaleAck.TwoWayCorrupts` shows. `ArqLink.TwoWayPrefix` covers the runs without an aliased one; after an aliased delivery the datagrams delivered may still be a prefix by the coincidence of equal contents, which is not characterised.
- SendLoop.Timing: assumes exact timers and treats choosing a retransmission as one step; oversleeping timers could choose one more.
- PeerLife.LifeInOrder: speaks about one life of an entry; when a dead entry is collected and created anew its generations start over.
- RoutingRun.HandleDiscipline: assumes that a pipe authenticates as one endpoint and that no handshake completes before the pipe's worker runs.
- ConnRace.StrandedExactly: a close request counts from the moment its connections are collected; whether the connection then closes depends on its other paths, which are not modelled.
- RoutingTables.Routing.PruneTombstones: tombstones of equal age are dropped in any order, as in the original's sort.
- Entries are values: `PeerRegistry` changes one field by field and stores it back in the map, so aliasing of entries is not modelled.
