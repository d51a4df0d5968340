# uio: verified cores

uio is an event-driven networking library for Go. This project models four of its stateful cores in
Dafny and proves what their comments promise of every run:

- **umux**, the stream multiplexer: two sessions joined by an ordered transport. `Windows`, `MuxStream`,
  `MuxSession`, `MuxFlush`, `MuxWire`, `Codec`, `Arena`, `Budget` and `StreamLife`.
- **The native stream connection**: the write claim and its senders (`WritePath`), the turn scheduler and
  the close (`ConnTurns`), and the striped shutdown barrier of an event loop (`TurnBarrier`).
- **The layer stack**: admission of writes (`LayerAdmission`) and half-close (`LayerHalfClose`).
- **The bridge**: backpressure between a relay's legs (`BridgeRelay`).

`Bytes` and `Sums` hold what the modules share about byte sequences and sums.

## How the models are built

Concurrent code is a state machine. `Do(s, step)` is one atomic operation, or one section under one lock,
of one goroutine; a step that is not enabled leaves the state alone. `Exec(s, steps)` is the state after a
run of steps taken in any order, so a lemma about `Exec(s, steps)` for all `steps` is about every
interleaving. Goroutines that differ in nothing but their next operation are counted; those that own
something are listed. Each module first proves that every step keeps its invariant (one lemma per
operation), then that every reachable state has it (`Reachable`), and ends with the section
"what is proved". History fields, such as the bytes a Write accepted, the frames a transport took or the
number of OnClose calls, only record; no modelled code reads them.

Code that runs alone is in the source's form: the windows and the receive arena are classes with methods
that update their fields, the arena over arrays shared as Go slices share them; the header encoder writes
into an array; the parse loop, `frameData` and the halving write are loops.

The multiplexer is proved in three layers. `MuxStream` is one stream with both ends and its frames on the
wire. `MuxSession` is two sessions with any number of streams, and its lemma `StreamAlone` shows that what
one stream sees of any run is a run of `MuxStream`, so everything proved of one stream holds of each.
`MuxFlush` is one session's flush requests: who will flush what the queues of `MuxSession` hold.
`MuxWire` carries the sessions' messages as the frames of `Codec` and shows that they are always legal and
that their bytes parse back, however they are split.

## Assumptions

- The socket takes a non-empty prefix of what it is offered or refuses all of it, and raises a writable
  edge when it goes from full to writable.
- Both ends of a multiplexed transport run this code. Windows are at least 256 KiB, as the configuration
  is resolved, and less than 2^32, since they travel as 32-bit numbers.
- A connection's callbacks do not panic and its executor refuses no turn.
- A session's transport reports each send after it, and refuses a frame only while it holds bytes.
- One reader consumes a stream at a time, as the documentation asks.
- A bridge's destination reports each shrink of its queue after it, and an empty one takes at least one
  byte.

## Where the code and its comments differ

- `umux/window.go:115-127` says that half a window of consumption earns an update; the code grants at a
  quarter of the smaller window. The model follows the code; `MuxStream.NeverStalls`' bound of three
  quarters is that of the code's threshold.
- `layer.go:1682-1685` says that of two writes that fit apart but not together both may be refused.
  `LayerAdmission.FirstIsAdmitted` shows that the first to reserve is not refused if nothing else is
  reserved then. Both are refused in two cases: while a third write that will be refused still has its
  reservation (`LayerAdmission.BothRefused`), and while one that is admitted and queued has not released
  its own and is counted twice (`LayerAdmission.CountedTwice`). `LayerAdmission.RefusedExactly` is the
  exact condition.
- `umux/session.go:897-900` leaves frames a flush did not send to the transport's next report. A flush also
  stops after 256 passes, and a pass over a queue entry whose stream has left counts as one. A flush that
  meets nothing else takes no frame, so no report follows, and it asks for no other flush: a live stream
  behind those entries keeps its frames until something unrelated flushes. `MuxFlush.NeverLeft` shows
  that nothing else strands frames, `MuxFlush.StarvedStrands` that such a flush does whenever nobody else
  is on the way, and `MuxFlush.FramesStranded` gives the run.
- `umux/session.go:563-564` calls a SYN's length the peer's initial window; the code reads it as a delta
  above the protocol's floor.

## Model

| member | source | states |
|---|---|---|
| `WritePath.Reachable` | conn_write_unix.go:153-1038 | every interleaving of producers, write turns, the connection's turn, the poller and the socket keeps the write path's invariant |
| `WritePath.BytesInOrder` | conn_write_unix.go:482-563 | in every run the wire, the detached batch, the direct send's rest, the reply space and outbound, in this order, are exactly the accepted writes in acceptance order |
| `WritePath.PendingExact` | conn_write_unix.go:442-458 | pending is exactly what is queued, in flight, reserved or sent and not yet retired; it never passes MaxOutboundBuffered; at zero, everything accepted is on the wire |
| `WritePath.NeverStranded` | conn_unix.go:371-515 | sendable output with the claim free always has somebody about to kick a sender or a turn about to flush; output marked blocked always has a full socket or an edge still to be handled, whatever came between EAGAIN and its record |
| `WritePath.AllSentAtRest` | conn_unix.go:565-624 | once nobody has an operation left and the socket has room, the wire holds every accepted byte |
| `WritePath.StepRanks` | conn_write_unix.go:900-968 | every step of a producer, a kick, a write turn, a send, the poller or the turn leaves less to send or to signal, or as much with fewer steps, except a write turn's look at empty queues while a reservation is outstanding |
| `WritePath.ComesToRest` | conn_unix.go:565-624 | from every reachable state, whatever the scheduler, those steps come to rest, and then, on a stream that is not closing and a socket with room, the wire holds every accepted byte |
| `WritePath.WritesKept` | conn_write_unix.go:498-563 | over any stretch of any run the wire only grows, and every accepted write, those accepted behind a direct send under way among them, keeps its bytes and its order; only that direct write may lose its unsent rest |
| `WritePath.AcceptBehind` | conn_write_unix.go:713-724 | a producer's write accepted during a direct send lies behind that send's unsent rest, not inside it |
| `WritePath.AloneInScratch` | conn_write_unix.go:188-214 | a reservation goes to the reply space only when nothing else is queued, in flight or reserved |
| `WritePath.HandOverOrdered` | conn_write_unix.go:217-231 | handing the reply space over keeps it ahead of everything queued after it |
| `WritePath.ClaimedKeeps` | conn_write_unix.go:482-493 | looking at pending again under the claim keeps the invariant: the direct send that then starts has nothing queued or in flight ahead of it |
| `WritePath.SuffixKeeps` | conn_write_unix.go:545-563 | settling a direct send's unsent rest keeps the invariant, reserved or refused for overflow |
| `WritePath.PeekedKeeps` | conn_write_unix.go:972-993 | an in-place send with the lock released keeps the invariant, whatever producers appended meanwhile |
| `WritePath.DetachedKeeps` | conn_write_unix.go:995-1038 | sending from the head of the detached batch keeps the invariant |
| `WritePath.ScratchKeeps` | conn_write_unix.go:262-310 | sending straight from the reply space keeps the invariant |
| `WritePath.ReservingKeeps` | conn_write_unix.go:153-179 | reserving under the kept claim keeps the invariant, with the flush and the second attempt when it does not fit |
| `WritePath.RefusedKeeps` | conn_unix.go:381-395 | recording EAGAIN keeps the invariant: a blocked mark always has a full socket or an edge still to be handled |
| `ConnTurns.Reachable` | conn_unix.go:979-1148 | every interleaving of producers, turns, write turns, closers and the shutdown pass keeps the scheduler's and the close's invariant |
| `ConnTurns.OneTurn` | conn_unix.go:987-1017 | at most one turn is claimed, queued, running or finishing; the scheduled bit says so exactly; the loop's count is exactly the admitted turns and the reservations in transit |
| `ConnTurns.NoEventLost` | conn_unix.go:1123-1148 | a folded event without a turn always has a producer or a finishing turn about to claim one |
| `ConnTurns.ClosedOnce` | conn_unix.go:2315-2345 | release, descriptor close and OnClose happen at most once each, in this order, and nothing is sent after the descriptor closed |
| `ConnTurns.PhaseForward` | conn_unix.go:312-362 | the close phase never moves back, over any stretch of any run |
| `ConnTurns.CloseNeverLost` | conn_unix.go:2460-2482 | until the loop stops, a requested close has a request on its way, a turn that will find it, or a holder of the write claim that was asked to hand it back |
| `ConnTurns.DrainNeverStuck` | conn_unix.go:456-460 | until the loop stops, a graceful close whose output has left has somebody who will end its drain: a turn as it ends, a request on its way to one, a holder of the write claim once it releases it, or the caller that began it |
| `ConnTurns.ClosedAtRest` | conn_unix.go:2186-2302 | once nobody has an operation left: no event is left on a live connection, a requested close has been carried out to the end, a graceful close still draining has output pending, after a shutdown every connection is closed, and OnClose was called exactly if it is wanted and the open turn began |
| `ConnTurns.NeverSpins` | conn_unix.go:979-1148 | in any interleaving turns, write turns, requests, releases and the shutdown pass take no more steps than a measure of what events, calls and output brought, so they come to rest; a teardown of a stopped loop that tries the claim again is not counted |
| `ConnTurns.RestIsQuiet` | conn_unix.go:1123-1148 | a connection none of those steps does anything for is one for which nobody has an operation left |
| `ConnTurns.RetryKeeps` | conn_unix.go:2474-2481 | marking the request and trying the claim again keeps the invariant: a close given up here is still handled |
| `ConnTurns.WaitedKeeps` | conn_unix.go:441-447 | a releasing holder that clears the request and schedules the teardown keeps the invariant |
| `ConnTurns.PassEndKeeps` | conn_unix.go:2487-2509 | the shutdown pass keeps the invariant as it publishes OnClose, claims the bit and counts the last turn |
| `TurnBarrier.Reachable` | eventloop_unix.go:287-364 | every interleaving of counting, giving back, uncounting and summing stripe by stripe keeps the barrier's invariant |
| `TurnBarrier.BarrierSound` | eventloop_unix.go:303-364 | once the idle channel is closed no admitted turn is left, although turns are uncounted on other stripes than they were counted on and the sum is not taken at one instant |
| `TurnBarrier.WaiterReleased` | eventloop_unix.go:329-337 | when every goroutine has finished after a stop, the waiter has been released |
| `TurnBarrier.NoAdmissionAfterStop` | eventloop_unix.go:314-323 | after the stop flag no turn is admitted, in any continuation |
| `LayerAdmission.Reachable` | layer.go:1672-1704 | every interleaving of reserve, check, enqueue, release and drain keeps the admission's invariant |
| `LayerAdmission.LimitHolds` | layer.go:1686-1696 | queued bytes and those admitted and not queued yet never pass the limit together |
| `LayerAdmission.ReservationExact` | layer.go:1698-1704 | in every run the reservation is exactly the sizes of the writes that have not released or undone it, and so zero when all have |
| `LayerAdmission.FirstIsAdmitted` | layer.go:1680-1696 | a write that reserves with none outstanding and fits is admitted, however many others reserve, pass and queue before it looks; one that does not fit is refused |
| `LayerAdmission.RefusedExactly` | layer.go:1680-1696 | a write is refused exactly when what is queued as it looks, what others held of the reservation as it reserved, and its size pass the limit together |
| `LayerAdmission.BothRefused` | layer.go:1682-1696 | while a write too large for the limit has its reservation, two others are both refused, whatever their sizes |
| `LayerAdmission.CountedTwice` | layer.go:1682-1704 | while a write is queued and not released, two others of which each fits are both refused |
| `LayerHalfClose.Reachable` | layer.go:2753-2828 | every interleaving of writers, CloseWrite, Flush, turns and a closing connection keeps the half-close's invariant |
| `LayerHalfClose.PassedOnce` | layer.go:2774-2806 | the end is passed below at most once |
| `LayerHalfClose.NeverOvertakes` | layer.go:2517-2563 | the step that passes the end finds no admitted write inside the layer and nothing held, and no write is admitted afterwards |
| `LayerHalfClose.NeverForgotten` | layer.go:2557-2563 | until the connection closes, an end still to be passed has somebody who will look at it, and at rest it has been passed |
| `BridgeRelay.Reachable` | bridge.go:275-372 | every interleaving of the callback, its pause and any number of drain reports keeps the leg's invariant |
| `BridgeRelay.NeverHangs` | bridge.go:275-372 | a leg with unforwarded input has a turn coming, or a report that will start one, or is marked waiting while its destination still has to drain or report |
| `BridgeRelay.NothingLeftAtRest` | bridge.go:316-351 | once the destination drained and every report ran, everything was forwarded and no pause is left |
| `BridgeRelay.NeverSpins` | bridge.go:275-372 | in any interleaving the callback and the reports take no more steps than a measure of the work there was and that arrivals, drains and writes brought, so they come to rest |
| `BridgeRelay.RestIsProgress` | bridge.go:316-351 | a leg at rest has forwarded everything unpaused, or is marked waiting with bytes queued at its destination, or is in a write an empty destination takes |
| `BridgeRelay.DrainRunsSource` | bridge.go:353-372 | with a report on its way to a waiting leg whose destination is down to half the limit, any order of the callback's and all reports' steps comes to rest, and by then the source has had a callback |
| `BridgeRelay.WritePrefix` | bridge.go:374-390 | the prefix writer gets at least one byte into an empty destination, at least half its budget, and reports exactly when bytes are left |
| `Windows.SendWindow.Take` | umux/window.go:44-51 | credit is spent exactly when it covers the bytes |
| `Windows.SendWindow.Grant` | umux/window.go:53-64 | a grant is taken exactly when it is positive and stays within the window |
| `Windows.RecvWindow.Retune` | umux/window.go:88-100 | the grant threshold is a quarter of the smaller window, and at least one byte |
| `Windows.RecvWindow.OnData` | umux/window.go:102-113 | an arrival is accepted exactly when the unread bytes stay within the window; it is accounted for either way |
| `Windows.RecvWindow.Consume` | umux/window.go:115-137 | consumption moves unread bytes to consumed ones and returns all of them once they reach the threshold |
| `Windows.ConsumedExact` | umux/window.go:119-137 | no byte is lost between unread, consumed and granted, and what stays ungranted is below the threshold |
| `MuxStream.Reachable` | umux/stream.go:236-607 | every interleaving of both ends and the wire keeps the stream's invariant |
| `MuxStream.StreamPreserved` | umux/stream.go:262-304 | while neither end aborted, bytes read, unread, on the wire, in queued frames and in a write's hand are exactly what Write accepted; always, what was read and is unread is a prefix of it |
| `MuxStream.EofAfterAll` | umux/stream.go:715-737 | a FIN leaves once and behind all data, so an end of stream is read only after every byte the other end's Write accepted |
| `MuxStream.CreditConserved` | umux/window.go:45-64 | credit held, queued, on the wire, unread, consumed, owed and in returning grants is always the smaller of the two windows, and neither onData nor grant ever reports a violation |
| `MuxStream.NeverStalls` | umux/window.go:88-137 | for any pair of windows, once nothing is queued, in flight or unread the sender holds more than three quarters of its window |
| `MuxStream.ResetsAreHeard` | umux/session.go:1088-1136 | an end that reset, refused or answered stray data is never left with a peer that still has the stream once its frames arrived; once everything arrived, the only departure that leaves a peer behind is an open timeout, and that peer has sent no byte |
| `MuxStream.OpenTimeoutLeaves` | umux/timers.go:111-120 | the run in which an open times out with its acknowledgement on the way: everything arrives and the acceptor still has the stream |
| `MuxStream.DataFits` | umux/stream.go:274-279 | a data frame sent against granted credit always fits the receiver's window |
| `MuxStream.GrantFits` | umux/stream.go:316-323 | a returning grant always fits the sender's window |
| `MuxStream.NotOpening` | umux/session.go:640-646 | before its ACK an opener is sent nothing but that ACK or a reset |
| `MuxStream.SynAccepted` | umux/session.go:633-650 | accepting a SYN keeps the invariant: the acceptor's credit is the smaller window and its ACK is ahead of everything else it sends |
| `MuxStream.AckKeeps` | umux/stream.go:236-256 | the ACK keeps the invariant: the opener's credit and threshold become those of the smaller window |
| `MuxStream.DataStray` | umux/session.go:461-469 | answering data for a stream that left the table with a reset keeps the invariant |
| `MuxStream.EndsMeet` | umux/session.go:853-886 | two ends that both ended their direction meet every condition to finish once their frames arrived and were read; that somebody then tries is `StreamLife.FinishComes` |
| `MuxSession.ActRefines` | umux/session.go:888-966 | each act of a session, a flush round and the loss of the transport included, is for each stream one step of its own or none |
| `MuxSession.StreamAlone` | umux/session.go:304-344 | what a stream sees of any run of both sessions, with any other streams, is a run of that stream alone |
| `MuxSession.EveryStream` | umux/session.go:455-486 | in every run every stream has its bytes in order and complete, its end after them, conserved credit, no violation, no stall, mutual resets, no peer left behind but by an open timeout, and no half-close left over |
| `MuxSession.NoneForgotten` | umux/session.go:740-773 | every stream with queued frames or an unsent FIN is on the flush queue, and none is on it twice |
| `MuxSession.NextTurn` | umux/session.go:906-964 | until a waiting stream's next frame is taken, the transport takes at most as many stream frames as entries were ahead of it, refusals included |
| `MuxSession.NoGrowth` | umux/session.go:233-253 | once GoAway is set the stream table never grows, over any stretch of any run |
| `MuxSession.ShutdownMeans` | umux/shutdown.go:107-137 | a drain that ended without an error ended with the table empty and the GoAway taken by the transport, and it stays empty |
| `MuxFlush.Reachable` | umux/session.go:775-977 | every interleaving of writers, requests, flushes under the lock, the turn and the transport's reports keeps the flush's invariant |
| `MuxFlush.NeverLeft` | umux/session.go:888-977 | unless a flush began with its bound of stale entries ahead of a live one, frames and FIN-sent streams left while no flush is under way have one on its way: the transport holds bytes or owes a report, somebody is about to request one, or a turn that will flush is asked for or has begun |
| `MuxFlush.RequestHeard` | umux/session.go:970-974 | a request that was made has its turn to come: a store that clears the flag never loses one |
| `MuxFlush.StarvedStrands` | umux/session.go:892-917 | a flush that begins so returns with the live entry queued and nobody on the way, whenever nobody else was |
| `MuxFlush.FramesStranded` | umux/session.go:892-917 | the run in which streams queue frames, all but one are reset in the turn that would flush them, and the last one's frames stay queued on an open, idle session, with a Handler or without |
| `MuxWire.MsgRoundTrip` | umux/session.go:435-512 | each message is a legal frame and the dispatch of that frame acts on the same message |
| `MuxWire.WireLegal` | umux/frame.go:126-155 | in every run, while stream numbers have not passed 32 bits, everything on the wire is legal for the session that will read it |
| `MuxWire.OverBytes` | umux/session.go:304-344 | in every run the bytes in flight, split across reads in any way, parse to exactly the messages in flight |
| `StreamLife.Reachable` | umux/session.go:796-886 | every interleaving of the transport's turns, their callbacks, aborts, settling and a closing or lost transport keeps the stream's invariant |
| `StreamLife.CloseIsLast` | umux/session.go:1139-1178 | OnClose is called at most once, no OnOpen, OnRead or OnTimer begins after it and none runs beside it |
| `StreamLife.FinishedMeans` | umux/session.go:853-886 | a cleanly finished stream has both FINs, its own accepted by the transport, nothing queued or unread and no callback; a callback's failure is never reported as a clean end |
| `StreamLife.FinishWaits` | umux/session.go:860-869 | over any stretch of any run, a stream whose consumer paused, released a pause or asked for a continuation does not finish cleanly until another OnRead has begun |
| `StreamLife.FinishComes` | umux/session.go:775-792 | until the transport closes, a stream whose directions both ended, that sent and was read everything and is not paused has a caller about to settle it, a finFlushed entry, a read turn on its way or the turn with it now |
| `StreamLife.CloseIsDelivered` | umux/stream.go:328-369 | once everything has come to rest, a stream that met those conditions has finished, and one that left the table has had its OnClose |
| `Codec.EncodeHeader` | umux/frame.go:116-124 | the header is written into the first twelve bytes and nothing else changes |
| `Codec.ValidMeans` | umux/frame.go:126-155 | a header passes exactly when it keeps the format's bounds, type by type |
| `Codec.HeaderRoundTrip` | umux/frame.go:93-114 | decoding a header undoes encoding it, whatever follows |
| `Codec.FrameRoundTrip` | umux/session.go:400-433 | a legal frame ahead of any bytes is read back exactly |
| `Codec.ReadStable` | umux/session.go:400-433 | what was decided from some bytes does not change when more follow |
| `Codec.AnySplit` | umux/session.go:304-344 | for any byte stream, malformed ones included, parsing block by block gives the same frames, rest and fault as parsing it whole |
| `Codec.SplitRoundTrip` | umux/session.go:304-344 | any sequence of legal frames, split across reads in any way, is parsed back exactly |
| `Codec.BorrowedIsCopied` | umux/session.go:421-432 | the payload borrowed from one block and the payload copied from several are the same bytes |
| `Codec.OnRead` | umux/session.go:316-341 | the parse loop takes the frames the whole buffer parses to, in order, and stops only for want of a frame, a fault or the budget; what it leaves parses to the rest |
| `Codec.FrameData` | umux/stream.go:586-607 | a write becomes non-empty data frames of at most MaxFrame bytes whose payloads are the write |
| `Codec.HeldTransportParses` | umux/transport.go:163-191 | a transport held at its read bound always has a frame to parse or a fault to report |
| `Arena.Inbound.constructor` | umux/stream.go:31-47 | a new queue is empty and nothing of it is lent |
| `Arena.Inbound.SetBorrowed` | umux/stream.go:63-68 | an empty queue takes over a run in the transport's memory |
| `Arena.Inbound.SetOwned` | umux/stream.go:70-76 | the queue adopts a run as its arena |
| `Arena.Inbound.Own` | umux/stream.go:78-91 | a borrowed run is copied and the queue's bytes stay; the arena is reused only while none of it is lent |
| `Arena.Inbound.Compact` | umux/stream.go:104-108 | moving the run to the front of its arena keeps the queue's bytes |
| `Arena.Inbound.Grow` | umux/stream.go:109-119 | moving the run to a larger arena keeps the queue's bytes and writes to no old memory |
| `Arena.Inbound.MakeRoom` | umux/stream.go:103-120 | there is room for the arrival afterwards, and a lent slice is untouched |
| `Arena.Inbound.Extend` | umux/stream.go:121-122 | bytes written behind the run are appended to the queue, and a lent slice is untouched |
| `Arena.Inbound.Append` | umux/stream.go:93-123 | the arrival is appended to the queue, through ownership, adoption, compaction or growth |
| `Arena.Inbound.Push` | umux/stream.go:279-283 | an arrival is queued behind what is unread, and transport memory is borrowed or copied but never becomes the arena that is written to |
| `Arena.Inbound.Consume` | umux/stream.go:125-137 | the queue loses exactly its first bytes, and an empty one keeps its arena |
| `Arena.Inbound.Drop` | umux/stream.go:139-145 | the queue is empty and a lent slice is untouched |
| `Arena.Inbound.Lend` | umux/stream.go:496-510 | a writer is handed the queue's bytes in memory the queue owns |
| `Arena.Inbound.GiveBack` | umux/stream.go:515-517 | the returned slice still has the bytes it was lent with |
| `Arena.HoldThrough` | umux/stream.go:490-527 | through any number of arrivals, in the transport's memory or copied out of it, and resets, the lent bytes do not change and the queue is the FIFO of what came since |
| `Budget.Reachable` | umux/session.go:998-1058 | every interleaving of parsing, reading, resets and returns keeps the budget's invariant |
| `Budget.BudgetExact` | umux/session.go:998-1022 | pendingBytes is exactly the unread bytes and those in transit, and exceeds SessionWindow by at most one legal frame |
| `Budget.HeldResumes` | umux/session.go:1024-1058 | a held session has more than the low-water mark charged, so some stream still has bytes to read, and frames left unparsed are held or have a turn asked for |
| `Budget.CrossingWakes` | umux/session.go:1007-1022 | a return resumes a held session exactly when it crosses the mark, asks for a turn then, and leaves room for a stream window or half the session's |

## Left out

- Sockets, pollers, accepting, listeners, socket options and addresses: foreign calls; only send and readiness are needed.
- The packages under internal/: byte blocks, pools and timers are byte sequences and free choices here; readcontrol is modelled as far as a pause, its owed turn and its release.
- The stdio backend (conn_std.go and its companions): the same guarantees by mutexes and a swapped batch.
- Accept hand-over, the descriptor gate, the loop closer, the reject queue and UDP send reports: smaller counting arguments of the kind of `ConnTurns`.
- Refused executor turns, callback panics and dropScratch: side paths that multiply cases; acquireCloseIO appears only in the shutdown pass.
- The layer stack's close walk, failTurn, receipts and dial probes: they depend on user layer code.
- UDP peers, Control aliases, deadlines and keepalive as clock behaviour: an expiry is an abort, or the end of a drain, that may come at any time.
- A flush that fails while a stream opens or is accepted: it loses the transport, which is a step of its own.
- utls, uws and ukcp: wrappers around crypto/tls, websocket framing and an engine that is not part of this model.
- Stream-id wrap-around after 2^31 opens, and peers that break the protocol.
- Metadata SYN frames in the session machine: `Codec` covers their framing; a metadata open is an open with more bytes in its first frame. Data frames that carry FIN or RST flags are never sent by this code and are not in the session machine.
- MaxStreams, the accept backlog and the Accept callback: refusing a SYN is a free choice of the acceptor.
- handleData's table lookup and its pushData are one step of `MuxStream`, as acceptStream's two lock sections are; `StreamLife` and `Budget` take them apart.
- The pull mode of a session without a Handler: no callbacks, so nothing of `StreamLife` applies.
- CloseWrite of the native socket (shutWrite) and write deadlines in `WritePath`; the claim's contended and claimer bits, which only tune yielding.
- The bytes of a ReserveOutbound reservation are taken when it is placed; that a callback fills them later is not modelled.
- In `WritePath` and `ConnTurns` a kick, a hand-back or a look for a drained queue runs on as an actor of its own after the release that causes it, which allows more interleavings than the code has.
- Fatal send errors: they end in a requested close, which `ConnTurns` takes from there; OnBytesWritten's effects are writes of the turn.
- Layers that add to or hold a write in `LayerAdmission`: the limit then depends on the layer.
- The close paths of a relay, and destinations that fail.
