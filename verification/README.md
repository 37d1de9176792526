# Verification of the ssl-socks relay protocol

The program is a proxy in two halves. A local end accepts TCP connections (as a
SOCKS5 server or transparently) and UDP datagrams, and multiplexes all of them
as numbered sessions over one TLS connection. For every TLS connection a remote
end unpacks the sessions and talks to the real destinations. Each object runs on
a strand; what one strand wants from another is posted to it.

This project models that as steps. Every relay is a record with an inbox
(handlers posted to its strand), a queue, drain coroutines suspended in a write,
and histories of what was offered, accepted, written and taken by the socket.
Endpoints put relays, tables and the manager's handlers together, and `Sessions`
is the whole system: one local end, all the TLS connections it ever dialled and
the remote end behind each of them. Where the source changes objects in place
there is a class (`BaseRelay`, `ReadLoop`, `Buffer`, `RawUdp`, `RelayManager`,
`GfwList`) whose methods are proved to do what the step functions say.

## Results

- **End-to-end stream integrity** (`EndToEnd.AlwaysIntact`). In every state of
  every behaviour, for every session with relays at both ends, each socket has
  taken a prefix of the bytes read from the other: no gap, no reordering,
  nothing of another session, across any number of replaced TLS connections. The
  remote relay connects to the destination that the local side asked for. Uses
  all hypotheses below.
- **Both ends stay in order** (`SystemShape.AlwaysEndsOk`) in every behaviour
  whose counter does not wrap, also when sessions share numbers and when a
  connection is revived after dropping frames: no handler faults, no null entry,
  no relay leaves the table without a stop, every frame has a length that the
  receiver's guard accepts.
- **The exchange terminates** (`Termination.ExchangeEnds`), again for every such
  behaviour: without new input it takes no more steps than a weighted count of
  the work that is left.
- **The send queue** (`QueueTheorems.EveryRun`, `SettledMeansDelivered`): one
  drain at most, FIFO conservation, no lost wake-up, in every interleaving and
  without any hypothesis.
- **Framing** (`SslReader.Framing`) under any chunking; **addresses**
  (`Addresses.ParseExact`) exactly those of sections 4 and 5 of RFC 1928.
- **UDP** replies are never misdelivered (`UdpRuns.EveryReplyGoesHome`), and the
  tables stay inverse exactly under two named conditions
  (`UdpCoherence.RunCoherentExact`).
- **The end of a session reaches the other end**
  (`SessionClose.LocalEndReachesRemote`, `RemoteEndReachesLocal`). When a relay's
  read loop is over and what it posted has been handled at the other end, its
  counterpart there is out of the table and stopped, for good. In every behaviour
  of an end, without hypotheses, a relay that is over has a STOP_TCP behind all its
  data on the way (`SessionEnd.EverythingIsPosted`), and no notice gets lost,
  whichever of the four causes it has (`SessionEnd.StopIsNeverLost`).
- **Idle counters are exact** in every behaviour of an end: a relay is in the table
  as long as it reads or starts a write once in eight ticks, and leaves on the tick
  that uses up its counter (`Activity.BusyExact`, `UsedIsKept`); the same for UDP
  clients that send or are answered (`UdpActivity.ClientExact`,
  `HeardKeepsSession`); and a remote end whose TLS connection is silent for as many
  ticks is over, with an empty table (`TlsIdle.IdleConnectionEnds`).
- **The rule compiler** (`GfwLists.ListMeaning`) preserves meaning: what a line
  says of hosts is described without the code's searches and cuts.

## Hypotheses

The first three are built into the steps, the others are premises of the theorems
that need them.

1. Handlers of one strand do not overlap, and one producer's messages arrive in
   order. (The inbox of a relay, the outbox of a relay towards its manager.)
2. TLS delivers a prefix of what was written, in chunks of any size. (`CanRead`.)
3. A closed or shut-down socket takes no bytes. (`Accept` needs an open socket.)
4. The 32-bit session counter does not wrap. (`Sessions.NoWrap`. Where a theorem
   has no such premise, as the one on UDP replies, the counter of the model is
   still a number without bound, so a wrap is not part of what it covers.)
5. No TCP session has the number of a UDP session. (`Sessions.Hypothesis`;
   `Collisions.CollisionExact` gives the step at which this first breaks, and
   `CollisionTrace.SharedNumberBreaksStream` a behaviour from the start in which
   it is all that fails, and stream integrity with it.)
6. No outgoing TLS connection completes its dial after it has dropped a frame.
   (`Sessions.Clean`. `QueueTheorems.DialSafeExact` says for any relay when
   completing a dial can do no harm: if no byte was dropped, or if a stop is
   pending and the frames in front of it still fit. Without a pending stop, and
   with bytes in every frame, that is: exactly if no frame was dropped,
   `DialSafeIff`. For relays to real destinations it follows from the other
   hypotheses and is not a premise.)

## Where the code departs from its intent

The model follows the code in each of these.

- src/base_relay.cpp:64 stores INIT after the loop even when a stop came in
  during the last write (`StopOverwritten`). The state is wrong, but no byte
  leaves any more (`StopIsFinal`); STOP is kept by every other step
  (`StopAbsorbingIff`).
- src/raw_tcp.cpp:303-312 and src/ssl_relay.cpp:122-143 revive a relay that was
  stopped while it was resolving or connecting: a closed socket stays closed
  exactly if no dial is under way (`ClosedForGood`). After a dropped frame,
  and unless a stop is pending, this leaves a gap in the stream as soon as another
  frame follows (`GapAfterLoss`, and `DialAfterLossLeavesGap` as a trace).
- src/raw_tcp.cpp:273-280 writes the SOCKS reply outside the drain, which has
  been started before. Two writes can be under way on one socket exactly if a
  frame is queued, or waits in front of any stop, while the reply is being
  written (`ReplyOverlap.OverlapExact`, with a behaviour in
  `ReplyOverlap.OverlapTrace`). `StreamIntegrity` speaks of the bytes that go
  through internal_send_data.
- src/relay_manager.cpp:245 and src/relay_manager.cpp:286 share numbers between
  TCP and UDP exactly when a TCP connection is accepted right after a UDP client
  was given a number (`SessionIds.SharedIdExact`). The remote end then replaces
  the UDP relay and writes datagrams into the TCP stream
  (`CollisionTrace.SharedNumberBreaksStream`).
- src/raw_udp.cpp:51-76 never resets the idle counter, so a remote UDP relay that
  only receives leaves the table after nine ticks (`IdleExpiry.LeavesAlone`
  counts a received datagram as leaving the relay alone).
- src/relay_manager.cpp:142 makes an entry for session 0 when a reply comes for
  an expired session; nine ticks later the sender forgets every peer
  (`UdpCoherence.UnknownReplyForgetsEveryone`).
- src/relay_manager.cpp:89-92 and src/relay_manager.cpp:288-291 restart the UDP
  sender without its peers. With the previous item this is exactly what breaks
  the agreement of the tables (`UdpCoherence.CoherentExact`).

## Files

`Bytes`, `Addresses`, `RelayData`: values and their layouts. `RelayQueue`,
`QueueTheorems`, `BaseRelay`, `ReplyOverlap`: the send queue. `SslReader`: the deframer.
`SessionIds`, `UdpTables`, `UdpCoherence`, `RawUdpSender`: numbers and UDP.
`Endpoints`, `RelayManager`, `Handlers`: one end and what its handlers do. `SessionEnd`:
STOP_TCP at one end. `IdleCounter`, `IdleExpiry`, `Activity`, `UdpActivity`, `TlsIdle`: the timer.
`Shape`: what an end keeps in every behaviour. `Streams`, `EndpointInv`,
`EndpointSteps`, `EndpointStrands`, `EndMoves`: conservation, under the hypotheses.
`Sessions`, `EndProjections`, `SystemShape`, `SystemRuns`, `EndToEnd`, `SessionClose`,
`UdpRuns`, `Collisions`, `CollisionTrace`: the system. `Potential`, `EndCosts`,
`Termination`: termination. `GfwList`: the rule compiler.

## Model

| member | source | states |
|---|---|---|
| `EndToEnd.AlwaysIntact` | src/relay_manager.cpp:69-160 | in every state of every behaviour of the two ends, under the hypotheses, each socket of a session has taken a prefix of what was read from the other one, and the remote relay has the destination asked for |
| `EndToEnd.StreamIntegrity` | src/relay_manager.cpp:105-137 | the same for one pair of relays in a state that satisfies the system's invariant |
| `SystemShape.AlwaysEndsOk` | src/relay_manager.cpp:95-170 | in every state of every behaviour without wrap-around, with shared numbers or not: no handler faults, no null entry is left, every relay that left the table was told to stop, every frame posted, sent or handled has a length the receiver accepts, and its guard passes |
| `EndToEnd.OneToOne` | src/relay_manager.cpp:240-256 | a remote TCP relay answers to one local relay, and no other connection has a relay for that session |
| `EndToEnd.NothingFromNowhere` | src/relay_manager.cpp:116-137 | until a remote end has a relay for a session, its local socket takes no byte |
| `SystemShape.NoLiveRelayLeaks` | src/relay_manager.cpp:95-170 | a relay that is not in the table has been told to stop, also one that a repeated START_TCP replaced |
| `SystemShape.AlwaysShaped` | src/relay_manager.cpp:69-170 | the invariant behind both holds in every behaviour without wrap-around |
| `Shape.StepShape` | src/raw_tcp.cpp:46-77 | every step of an end keeps its part of it |
| `Shape.AddResponseShape` | src/relay_manager.cpp:116-160 | so does handling any well-formed frame under any number |
| `Shape.StartShape` | src/relay_manager.cpp:105-115 | START_TCP, also for a number in use, stops the relay that had the entry before it loses it |
| `SystemRuns.StepKeepsWInv` | src/relay_manager.cpp:69-160 | every step of either end, of the transport and of the read loops keeps the system's invariant |
| `SystemRuns.Always` | src/relay_manager.cpp:271-278 | the invariant holds in every state of every behaviour from the start |
| `SystemRuns.StartIsNew` | src/relay_manager.cpp:105-115 | a START_TCP on its way is the first stream frame of its session on any connection |
| `SystemRuns.UdpIsNotTcp` | src/relay_manager.cpp:95-104 | with disjoint numbers, UDP data never meets a TCP relay at the remote end |
| `SystemRuns.NothingBack` | src/relay_manager.cpp:116-137 | before its START_TCP is handled nothing of a session has come back |
| `SystemRuns.StepBack` | src/relay_manager.cpp:240-300 | numbers and their owners are never forgotten: the hypotheses at the end of a step held before it |
| `EndpointStrands.EndpointStepKeeps` | src/raw_tcp.cpp:46-77 | every step of a relay's strand, acceptor or timer keeps an end's invariant: conservation from read loop to connection, table, numbers |
| `EndpointSteps.AddResponseKeeps` | src/relay_manager.cpp:116-160 | handling an expected frame keeps that invariant: what a TCP relay is given is what came for it while in the table |
| `EndpointInv.AddRequestKeeps` | src/relay_manager.cpp:69-85 | a posted frame ends up in the offered history of the current connection, also when that connection is replaced or the end gives up |
| `EndpointStrands.ReplyEndsKeeps` | src/raw_tcp.cpp:277-289 | both outcomes of the SOCKS reply keep the end's invariant |
| `EndpointStrands.ReadFailsKeeps` | src/raw_tcp.cpp:66-74 | the end of a read loop keeps the end's invariant; what it posts is stated by `SessionEnd` |
| `Sessions.OneHost` | src/relay_manager.cpp:105-115 | a session is hosted by at most one connection |
| `Sessions.StartIsFirst` | src/raw_tcp.cpp:182-201 | a local end's START_TCP precedes all stream frames of its session on every connection |
| `Sessions.RemoteSendsNoStart` | src/raw_tcp.cpp:297-315 | a remote end never sends START_TCP |
| `SessionClose.LocalEndReachesRemote` | src/relay_manager.cpp:148-158 | in every state of every behaviour, under the hypotheses: a local relay whose read loop is over, its outbox empty and the hosting connection handled, has its remote relay out of the table and stopped, unless a later connection got the STOP_TCP |
| `SessionClose.RemoteEndReachesLocal` | src/raw_tcp.cpp:66-74 | the same for a remote relay and its local counterpart |
| `SessionClose.StopCloses` | src/relay_manager.cpp:148-158 | whatever a STOP_TCP was sent for: once handled, behind the START_TCP at a remote end, the session's relays are out and stopped in every later state |
| `SessionClose.StepStops` | src/relay_manager.cpp:116-160 | every step of the system keeps that: numbers are not used again, STOP_TCP comes back only for sessions of the local end |
| `SessionEnd.EverythingIsPosted` | src/raw_tcp.cpp:46-77 | in every behaviour of an end: what a relay posted, in its outbox or offered to the connections in this order, has exactly the bytes it read, START_TCP first, STOP_TCP only if it was told to stop, and one behind all data when its read loop is over |
| `SessionEnd.StopIsNeverLost` | src/relay_manager.cpp:125-132 | a failed start, a failed read, a failed SOCKS reply and DATA_TCP for a stopped relay: from then on, in every behaviour, a STOP_TCP of the session is in the outbox or was offered |
| `SessionEnd.StopEndsSession` | src/relay_manager.cpp:148-158 | in every behaviour of an end: STOP_TCP that finds an entry takes the relay out and stops it, as long as the number is not used again |
| `SessionEnd.StopArrives` | src/relay_manager.cpp:148-158 | STOP_TCP erases one entry and stops one relay, and nothing else changes |
| `Handlers.LocalRequest` | src/relay_manager.cpp:69-85 | a local end posts a frame to a connection that is not stopped: the current one, or a new one if that is stopped or there is none |
| `Handlers.RemoteRequest` | src/relay_manager.cpp:74-78 | a remote end posts it to its connection, or stops every relay in the table and itself |
| `Handlers.AlwaysOnlyStoppedReplaced` | src/relay_manager.cpp:73-82 | in every behaviour of an end: all connections but the current one have been told to stop, and a remote end never dials |
| `Handlers.AlwaysStartedExactly` | src/relay_manager.cpp:105-115 | in every behaviour of a remote end: it has had a TCP relay for exactly the sessions whose START_TCP it handled with an address that parses |
| `Handlers.StartMakesRelay` | src/relay_manager.cpp:105-115 | START_TCP: a new relay that is to dial the address takes the entry, the one that had it is stopped, others are untouched |
| `Handlers.AcceptMakesRelay` | src/relay_manager.cpp:240-255 | an accepted connection gets the next number and a relay with an open socket, or only uses the number up |
| `Handlers.DataIsGiven` | src/relay_manager.cpp:120-137 | DATA_TCP posts its bytes to the relay that has the entry, and does nothing else |
| `Handlers.DatagramIsGiven` | src/relay_manager.cpp:95-104 | DATA_UDP at a remote end posts the payload to the session's relay, a new open one if that is missing or stopped |
| `Handlers.StartedReads` | src/raw_tcp.cpp:308-314 | a dial that succeeds opens the socket, wakes the drain and starts the read loop |
| `Handlers.StartIsPosted` | src/raw_tcp.cpp:182-201 | a local relay posts START_TCP with the address as it came, keeps the destination that parses from it, and reads from then on |
| `Handlers.DatagramIsPosted` | src/raw_udp.cpp:57-70 | a received datagram is posted as DATA_UDP of its session, its payload and sender address readable at the other end |
| `Activity.BusyExact` | src/relay_manager.cpp:214-222 | in every behaviour that takes the relay out by no other means: in the table with as many ticks as are left of its counter, set to 9 by each read and each write begun; out and stopped on the tick that uses up the last one |
| `Activity.UsedIsKept` | src/base_relay.cpp:77-89 | a relay used at least once in every eight ticks is always in the table, and ticks post nothing to it |
| `Activity.WritesReset` | src/base_relay.cpp:53-62 | which steps start a write, that they set the counter to 9, and that no other step of the strand touches it |
| `Activity.ReadsReset` | src/raw_tcp.cpp:51-65 | a read posts its bytes as DATA_TCP and sets the counter to 9 |
| `Activity.FramesReset` | src/ssl_relay.cpp:47-84 | a frame from the connection sets a remote end's counter to 9, a read that ends the loop stops the connection |
| `Activity.FramesResetDown` | src/ssl_relay.cpp:47-84 | the same at the local end |
| `UdpActivity.ClientIsHeard` | src/relay_manager.cpp:280-300 | a client's datagram: counter 9, a live session kept, a new one numbered and announced, other clients untouched, DATA_UDP of that session offered |
| `UdpActivity.ReplyIsHeard` | src/relay_manager.cpp:138-143 | a reply: posted to the sender, counter of its receiver 9, sessions untouched |
| `UdpActivity.ClientExact` | src/relay_manager.cpp:203-213 | in every behaviour without an idle connection: a client has its session and is found by replies as long as ticks are left, set to 9 by each datagram and reply, and is in neither table after the last one |
| `UdpActivity.HeardKeepsSession` | src/relay_manager.cpp:284-297 | a client that sends or is answered at least once in every eight ticks keeps its session |
| `TlsIdle.IdleTickAtRemote` | src/relay_manager.cpp:190-194 | the tick that uses up the connection of a remote end stops every relay, empties the table, stops the end and its timer |
| `TlsIdle.IdleTickAtLocal` | src/relay_manager.cpp:195-200 | at a local end it empties both UDP tables and, once handled, the sender's peers, and the end goes on |
| `TlsIdle.OtherTick` | src/relay_manager.cpp:178-213 | any other tick keeps the end running and takes one tick from the connection and from each client |
| `TlsIdle.ConnectionExact` | src/relay_manager.cpp:190-194 | in every behaviour of a remote end: the connection's counter is what frames, writes and ticks make it, and the end is over with an empty table when it reaches 0 |
| `TlsIdle.IdleConnectionEnds` | src/relay_manager.cpp:173-194 | in every behaviour of the system: a remote end whose connection is silent for as many ticks as its counter stood at is over |
| `EndProjections.LocalBehaviour` | src/relay_manager.cpp:69-160 | what a behaviour of the system is to the local end is a behaviour of that end |
| `EndProjections.RemoteBehaviour` | src/relay_manager.cpp:69-160 | the same for the remote end behind each connection |
| `UdpCoherence.PostedRepliesReachClients` | src/raw_udp.cpp:134-170 | a reply of a live session posted to a sender that has not stopped is sent to that session's client |
| `UdpCoherence.ExpiredAreForgotten` | src/relay_manager.cpp:203-213 | a tick makes the sender forget the sessions that expire and only those, unless an entry of session 0 expires |
| `Termination.EveryRunEnds` | src/relay_manager.cpp:116-160 | from a state of the structural invariant, a behaviour without outside input has at most as many steps as there is work left |
| `Termination.ExchangeEnds` | src/raw_tcp.cpp:66-74 | the same after any beginning, from the start, in which the outside took part; only wrap-around is excluded |
| `EndCosts.ResponseCost` | src/relay_manager.cpp:116-160 | handling any well-formed frame uses up some of its weight, including DATA_TCP on a stopped relay, which erases its entry and emits one STOP_TCP, and START_TCP for a number in use |
| `EndCosts.AddRequestCost` | src/relay_manager.cpp:69-85 | posting a frame, with a dial or with stop_manager if need be, costs no more than its weight |
| `EndCosts.EndpointStepCost` | src/raw_tcp.cpp:46-77 | every unprompted step of an end uses up work |
| `Potential.RelayStepCost` | src/base_relay.cpp:45-71 | every step of a relay's strand and socket uses up work, every byte written more |
| `QueueTheorems.EveryRun` | src/base_relay.cpp:29-71 | in every interleaving: one drain at most, accepted is written followed by queued, the socket has a prefix of the accepted bytes, an idle INIT relay has an empty queue, offered bytes are accepted, waiting or counted as dropped |
| `QueueTheorems.EveryCleanRun` | src/base_relay.cpp:29-71 | when no dial completes after a drop, the socket has a prefix of the offered bytes |
| `QueueTheorems.SettledMeansDelivered` | src/base_relay.cpp:38-64 | after any run a relay with an open socket comes to rest only when every accepted byte is out, which is every offered byte if none was dropped |
| `QueueTheorems.StopIsFinal` | src/base_relay.cpp:50-68 | once the socket is closed and no dial is under way it takes no byte in any interleaving |
| `QueueTheorems.ClosedForGood` | src/raw_tcp.cpp:297-315 | a closed socket stays closed in all interleavings exactly if no dial is under way |
| `QueueTheorems.StopAbsorbingIff` | src/base_relay.cpp:54-64 | STOP is left exactly by the completion of the last queued write |
| `QueueTheorems.StopAbsorbing` | src/base_relay.cpp:65-68 | STOP is absorbing in every run in which writes in flight fail after the close |
| `QueueTheorems.StopOverwritten` | src/base_relay.cpp:62-64 | a stop during the last write is overwritten with INIT on a closed socket |
| `QueueTheorems.DialSafeExact` | src/ssl_relay.cpp:122-143 | after any run, completing a dial leaves the bytes a prefix of what is offered in every continuation exactly if no byte was dropped, or a stop is pending and the frames in front of it continue what was offered |
| `QueueTheorems.DialSafe` | src/raw_tcp.cpp:297-315 | the same for any dialling relay in a state of the invariant that every run keeps |
| `QueueTheorems.DialSafeIff` | src/raw_tcp.cpp:297-315 | with bytes in every frame and no stop pending: exactly if no frame was dropped |
| `QueueTheorems.GapAfterLoss` | src/ssl_relay.cpp:142-143 | after a drop, with no stop pending, there is a continuation that leaves a gap |
| `QueueTheorems.DialAfterLossLeavesGap` | src/ssl_relay.cpp:142-143 | a trace in which a revived relay skips a frame |
| `RelayQueue.StepKeepsCore` | src/base_relay.cpp:29-71 | every step of a relay keeps single drain, wake-up, FIFO conservation, stop facts and the byte account |
| `RelayQueue.StepKeepsInv` | src/base_relay.cpp:29-71 | a step that completes no dial after a drop also keeps the stream whole |
| `RelayQueue.RunKeepsCore` | src/base_relay.cpp:29-89 | the first holds over every run, with messages, timer ticks and resets at any point |
| `ReplyOverlap.OverlapExact` | src/raw_tcp.cpp:273-280 | while the SOCKS reply is being written, the drain can start a second write before anything else is posted exactly if a frame is queued or waits in front of any stop |
| `ReplyOverlap.OverlapStepExact` | src/raw_tcp.cpp:273-280 | the step that starts it is a spawned drain that finds INIT and a queue that is not empty |
| `ReplyOverlap.OverlapTrace` | src/raw_tcp.cpp:273-280 | a behaviour of a SOCKS end with two writes under way on an open socket |
| `BaseRelays.BaseRelay.DrainTask` | src/base_relay.cpp:45-71 | the coroutine, run through any schedule of suspensions, does what the steps of the drain say |
| `BaseRelays.BaseRelay.SendData` | src/base_relay.cpp:29-43 | drops the frame in STOP, else queues it and wakes the drain for the first one in INIT |
| `BaseRelays.BaseRelay.StopRelay` | src/raw_tcp.cpp:98-112 | the stopped state, also when the early return of raw_tcp is taken |
| `BaseRelays.BaseRelay.TimeoutDown` | src/base_relay.cpp:81-89 | counts down, posts one stop on reaching zero, returns what is left |
| `BaseRelays.BaseRelay.Start` | src/ssl_relay.cpp:142-151 | both ends of the start coroutine |
| `BaseRelays.OthersKeepWriter` | src/base_relay.cpp:50-61 | while a drain is suspended no second one passes the state check |
| `SslReader.Framing` | src/ssl_relay.cpp:42-86 | for every chunking the frames handed on are a prefix of the frames sent, all of them once the stream is read and no header came in pieces |
| `SslReader.FramingFromStart` | src/ssl_relay.cpp:42-86 | the same from the start of a connection, for any prefix of what was sent |
| `SslReader.ReadKeepsInv` | src/ssl_relay.cpp:47-78 | the loop ends only on a failed read or a header in pieces: the length guard never rejects a peer's frame |
| `SslReader.ReadLoop.Run` | src/ssl_relay.cpp:47-78 | the loop with its two buffers does what the reads say |
| `RelayData.HeaderRoundTrip` | src/relay_data.hpp:19-25 | the receiver reads back the header that was sent |
| `RelayData.DatagramRoundTrip` | src/raw_udp.cpp:57-68 | address and payload of a datagram frame are recovered from it, and the frame is well formed |
| `RelayData.FrameDatagram` | src/raw_udp.cpp:57-68 | writing the address never touches the payload at offset 19 |
| `RelayData.ResizeUdpExact` | src/relay_data.hpp:70-72 | the wrapped length is in range exactly when the receive did not fail |
| `RelayData.SocksDestination` | src/raw_tcp.cpp:243-255 | the remote end accepts a SOCKS request's address exactly when the local end did, and finds the same destination |
| `RelayData.TransparentDestination` | src/raw_tcp.cpp:186-188 | the remote end accepts the encoded original destination and finds it again |
| `Addresses.ParseExact` | src/utils.cpp:36-77 | parse_address reports d exactly on buffers that start with d's encoding of section 5 of RFC 1928 |
| `Addresses.ParseAddr` | src/utils.cpp:18-34 | writes the encoding and leaves every byte behind it alone |
| `Addresses.AddressRoundTrip` | src/raw_udp.cpp:117-132 | get_data_addr inverts parse_addr, and parse_address agrees |
| `Addresses.DecodersAgree` | src/raw_udp.cpp:117-132 | both decoders agree on every buffer that holds an IP address |
| `SessionIds.SharedIdExact` | src/relay_manager.cpp:240-300 | two allocations share a number exactly when a TCP one directly follows a UDP one |
| `SessionIds.DistinctExact` | src/relay_manager.cpp:240-300 | all numbers are distinct exactly when that never happens |
| `Collisions.CollisionExact` | src/relay_manager.cpp:240-256 | the step at which numbers first collide is a TCP accept while the counter stands at a UDP client's number |
| `Collisions.NumbersGivenOut` | src/relay_manager.cpp:240-300 | both kinds of session take their number from the one counter as `SessionIds` supposes |
| `Collisions.SameNumber` | src/relay_manager.cpp:284-286 | a UDP client and then a TCP connection get the number 2 |
| `CollisionTrace.SharedNumberBreaksStream` | src/relay_manager.cpp:95-115 | a behaviour from the start, without wrap-around and without a dial after a drop, after which a remote TCP socket has taken a datagram's bytes |
| `Collisions.DatagramEntersStream` | src/relay_manager.cpp:95-104 | UDP data under a TCP relay's number is offered to its socket |
| `UdpTables.NeverMisdelivered` | src/raw_udp.cpp:31-48 | over every run of the tables and senders a datagram goes to its session's owner or to nobody in particular |
| `UdpRuns.EveryReplyGoesHome` | src/relay_manager.cpp:280-300 | the same in every behaviour of the whole system, with shared numbers or not |
| `UdpCoherence.CoherentExact` | src/relay_manager.cpp:138-145 | an event keeps the tables inverse and the peers right exactly when it is no reply to an unknown session and restarts no sender over live ones |
| `UdpCoherence.RunCoherentExact` | src/relay_manager.cpp:190-213 | the same over whole runs, with expiry and clearing |
| `UdpCoherence.LiveRepliesReachClients` | src/raw_udp.cpp:134-170 | with coherent tables, after the sender has run what was posted to it, every queued reply of a live session goes to its client, whatever else is in the queue |
| `UdpCoherence.SessionZeroForgetsEveryone` | src/raw_udp.cpp:38-48 | expiry of an entry with session 0 clears all peers |
| `UdpCoherence.UnknownReplyForgetsEveryone` | src/relay_manager.cpp:138-145 | nine ticks after a reply to an expired session the sender has no peer left |
| `UdpCoherence.IdleExact` | src/relay_manager.cpp:203-213 | a client set to t leaves on tick t and not before |
| `IdleExpiry.RelayIdleExact` | src/relay_manager.cpp:214-222 | over consecutive ticks a relay with counter t leaves on tick t with a stop posted, a null entry on the first |
| `IdleExpiry.IdleInBehaviour` | src/relay_manager.cpp:190-222 | in any behaviour of an end in which the relay neither reads nor starts a write: in the table before the t-th tick, out and stopped from then on |
| `RawUdpSender.RawUdp.GetSendDataAddr` | src/raw_udp.cpp:134-160 | remote end: the address in the frame; transparent: binds to that address and finds the peer, making a default one if there is none; else the stored address |
| `RawUdpSender.RawUdp.DelPeer` | src/raw_udp.cpp:38-48 | removes one peer, or all for session 0 |
| `RawUdpSender.RawUdp.AddPeer` | src/raw_udp.cpp:31-37 | sets one peer and leaves the others |
| `RelayManagers.RelayManager.AddRequest` | src/relay_manager.cpp:69-85 | the whole new state: dial again at a local end, stop everything at a remote one, else post |
| `RelayManagers.RelayManager.AddResponse` | src/relay_manager.cpp:116-160 | the whole new state for every command |
| `RelayManagers.RelayManager.Tick` | src/relay_manager.cpp:178-222 | the timer's body equals counting down and filtering the tables, and the loop waits again only if the state was not STOP after it |
| `RelayManagers.RelayManager.TickRelays` | src/relay_manager.cpp:214-222 | erasing while iterating over the relays, in any order, equals the filter |
| `RelayManagers.RelayManager.TickSrcs` | src/relay_manager.cpp:203-213 | erasing while iterating over the clients, in any order, equals the filter and posts one del_peer for each that expired |
| `RelayManagers.RelayManager.StopManager` | src/relay_manager.cpp:162-170 | every relay in the table is told to stop, the table is cleared |
| `RelayManagers.RelayManager.SendUdpData` | src/relay_manager.cpp:280-300 | the whole new state for a datagram of a new or known client |
| `RelayManagers.RelayManager.AddLocalRawTcp` | src/relay_manager.cpp:240-256 | the whole new state for an accepted connection |
| `GfwLists.ListMeaning` | src/gfwlist.cpp:25-121 | a host is blocked exactly when some suffix of it matches the host part of some line (scheme, two slashes, host part, path, bars anywhere) that is no comment, or when there is no such line |
| `GfwLists.HostPartExact` | src/gfwlist.cpp:53-60 | the two searches and cuts leave exactly the one text that stands behind the first two slashes in a row, if any, and in front of the next slash |
| `GfwLists.UsedExact` | src/gfwlist.cpp:45-65 | a line has a rule exactly if it is no comment and its host part is not empty |
| `GfwLists.SearchesSuffix` | src/gfwlist.cpp:110-121 | regex search with the compiled atoms succeeds exactly when some suffix matches the rule |
| `GfwLists.CompiledAtoms` | src/gfwlist.cpp:54-61 | the compiled text parses to one atom per character and the end anchor |
| `GfwLists.TwoPasses` | src/gfwlist.cpp:54-55 | the two passes are one translation of the characters |
| `GfwLists.OtherOrderExact` | src/gfwlist.cpp:54-55 | in the other order they are exactly on rules without a star |
| `GfwLists.NoStarsIsSuffix` | src/gfwlist.cpp:45-61 | a rule without stars blocks exactly the hosts that end with it |
| `GfwLists.UniqueExact` | src/gfwlist.cpp:72-73 | the list with equal neighbours made one: none left, nothing else gone, same order |
| `GfwLists.UniqueAnswers` | src/gfwlist.cpp:63-73 | std::unique changes no answer |
| `GfwLists.ReplaceString` | src/gfwlist.cpp:17-24 | the in-place loop gives the leftmost non-overlapping replacement, for every non-empty source and every replacement, and ends |
| `GfwLists.GfwList.LoadList` | src/gfwlist.cpp:25-73 | the rules of the used lines are appended in order and neighbours made unique |
| `GfwLists.GfwList.CompileLine` | src/gfwlist.cpp:45-61 | no rule exactly for comments, exceptions, indented lines and lines without a host part; else the translated host part and the end anchor |
| `GfwLists.GfwList.IsBlocked` | src/gfwlist.cpp:81-121 | the answer is decided by the first pattern that matches or throws, true for an empty list; for compiled rules it is that of some pattern found |

## Left out

- Sockets, TLS, certificates, name resolution, socket options: a socket is
  unopened, open or closed, takes bytes or fails; reads and accepts are steps of
  the environment.
- The strands' real concurrency: shared_ptr lifetimes, data races on fields that
  are read from another strand. The state of a relay is read by its manager as
  it is between two handlers.
- Handlers a strand runs inline for itself (stop_relay called on its own strand)
  may run later in the model; the model then has more runs than the program.
- The bytes of the SOCKS method reply and connect reply, which are written
  outside of the drain (src/raw_tcp.cpp:224-227, src/raw_tcp.cpp:277-280); when
  the connect reply is under way, that it ends, or fails with a STOP_TCP, is
  modelled.
- The direct path for hosts that are not blocked (src/raw_tcp.cpp:133-173): two
  copy loops that do not use the relay protocol.
- A receive that fails in the UDP acceptor (src/relay_acceptor.cpp:132-133): the
  frame would have length 18; `RelayData.ResizeUdpExact` gives the condition, and
  the acceptor's step supposes a receive that succeeded.
- Datagrams end to end: the system's theorem is about TCP sessions. For UDP there
  are the codec (`RelayData.DatagramRoundTrip`), the numbers, the tables and the
  sender; a remote UDP relay's destination is what `Addresses.DecodeAddr` finds
  in the frame.
- Relays of a manager as separate heap objects: `RelayManager` holds their
  records in a list and points to them by position, so aliasing is not modelled.
- Textual form of IP addresses, configuration, logging.
- GfwLists.GfwList.IsBlocked: what std::regex does with patterns outside of the
  part of its syntax that compiled rules use (literal, escaped dot, dot,
  dot-star, end anchor) is a parameter.
- GfwLists.ListMeaning: for rules of host name characters, dots and stars, and for
  hosts without line breaks, which a dot does not match.
- GfwLists.ReplaceString: an empty source string would never end and is excluded.
