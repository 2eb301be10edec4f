# A verified model of rammux

rammux runs many byte streams over one ordered transport. This project models it in Dafny, from the bytes of a frame
header up to two whole endpoints that exchange frames, and proves what its documentation promises.

The model has two layers.

- **Values.** `Outbound`, `Inbound` and `Endpoint` are the two directions of a stream and one side of a connection as
  functions on values. `System` is two endpoints with an ordered channel of stream parts in each direction. A run is
  any sequence of actions: applications open, write, read and close streams, tasks are polled, frames arrive. The
  allowance of a stream is an arbitrary number, chosen anew at every poll, so the results hold for every rate estimate
  and every clock. The theorems about the protocol are about all runs.
- **Objects.** `Sending`, `Receiving`, `StreamTask`, `StreamTable`, `Connection`, `Decoder`, `Encoder`, `Downgrade`,
  `PinLists` and `DataLists` are the classes that update their fields in place. `Joined`, `Wired` and `Wire` put two sides together. Each method is proved to do what the
  value-level function says, and the loops are proved to terminate.

Main results:

| theorem | in words |
|---|---|
| `Safety.NoViolation` | two conforming endpoints never fail each other, however often stream IDs are reused |
| `Delivery.NoDeadlock` | when nothing can happen any more, everything was sent and read, and no queue or pool is in use |
| `Progress.EverythingArrives`, `Observed.EverythingIsRead` | polling, delivering and reading stops after a bounded number of steps, and then the applications have read all bytes that they wrote |
| `Delivery.Conservation`, `Delivery.Integrity`, `Observed.ReadsWhatWasWritten` | every byte is counted exactly once, and what reads return is what writes took, in order |
| `History.LogsDetermine`, `Answers.RefusesExactly`, `Answers.PollAnswers` | with any peer: what can be observed of a stream determines its state, what it sends next, and which frames of the peer are refused |
| `Guarantees.NoLostWakeup`, `Bypass.BoundedBypass` | whoever can go on is awake, and nobody is overtaken without bound |
| `Reasons.WokenForAReason` | nobody is woken for nothing |
| `Guarantees.MemoryBound` | unread data is at most a base window per stream that the configuration permits, and the pool, against any peer |
| `Layout.EncodeLaysOut`, `Layout.ParsesExactly` | the bytes on the wire are exactly those of the documented layout |
| `Connection.Active.PollSend`, `Connection.WireIsChannel` | what woken streams yield goes into legal frames, in order, and arrives like that, whatever the transport does to the bytes |
| `Joined.JoinedNeverFail`, `Wire.Drive` | two connection objects, with their own names for the streams and two byte transports between them, run like `System` under any schedule, report no violation, and whatever one application reads is what the other wrote |
| `Downgrade.CleanBothWays` | after the downgrade each side finds exactly what the peer sent after its `TERM` |
| `Growth.TwiceExactlyWhenTame` | for a given pool and given samples, a stream borrows at most twice the credit in all runs if and only if the pool is too small for any growth of the round trip time to matter |

## Reading the model

A `Ref` names a stream object (an incarnation of a stream ID). Frames carry the reference as a `tag`, next to the ID.
The receiver uses the tag only to name a stream that it creates; it finds existing streams by the ID alone. That
tag and ID always agree is a part of `Safety.NoViolation`, and this is what makes the reuse of IDs safe. In the objects,
no name goes over the wire: each side gives a stream that starts there its own next reference. `Renaming` shows that an
endpoint does the same under any names, and `Joined` that therefore every run of two such sides is a run of `System`.

`awake` is the set of streams whose task was woken since it was last polled. A poll removes the stream, a wake-up or a
yielded update adds it again. It is an assumption that the selector polls such tasks eventually, and again after
`Continue`.

`ConfigsMatch` is what two endpoints have to agree on: the frame limit, the windows and the pools, and that neither may
start more streams than the other accepts, or than there are IDs.

Fields such as `accepted`, `taken`, `quit` and `forgotten` are history. No operation depends on them. What they stand for is
stated without them: a `History.Log` holds what the application of a stream passed in and was told, and the parts that
the stream sent and got. It grows by what can be observed from outside, and the theorems of `Answers`, `Observed` and
`Transcript` are about it.

One statement of the documentation does not hold as written: the credit threshold is "at most half of the base window"
only for windows of at least two bytes, because the code raises it to one. The consequence that the protocol needs, a
stream below the threshold has room in its base window, holds for every window (`Flow.CreditThreshold`,
`Flow.ThresholdAtMostHalf`).

How much a stream may borrow depends on the smoothed round trip time. In every run the allowance is at most twice the
credit received, each credit rescaled by how the round trip time has changed since (`Rate.AllowanceRescales`). That a
stream borrows at most twice the credit is not true in general: when the round trip time grows from one sample to a later
one, old credit stands for more bytes than were credited. Rounding and the size of the pool can hide that. `Growth.Need` is
the least credit for which the growth is worth a byte. For every base window, frame limit and pool, and all samples, the
bound holds in all runs if and only if the pool is at most twice that credit for every growth (`Growth.TwiceExactlyWhenTame`).
So with a pool of at most two bytes it always holds (`Growth.TinyPoolIsTame`), and for pools of any size it holds if and only
if no sample is larger than an earlier one (`Growth.TwiceExactlyWithoutGrowth`). In these runs the size of the pool is fixed
and what the stream has borrowed counts as used, as in the code.

## Model

| member | source | states |
|---|---|---|
| `Safety.NoViolation` | src/connection/streams.rs:90-164 | in every run of two conforming endpoints no frame is answered with a violation: no unknown stream, occupied or wrong ID, exceeded limit, data or `FIN_*` after a `FIN_*`, excess credit or overdrawn pool; the system invariant holds throughout |
| `Safety.Step` | src/connection/streams.rs:76-164 | every single action keeps the invariant of the whole system and succeeds |
| `Safety.PoolSuffices` | src/stream/inbound.rs:236-242 | the next data in flight always fits into the receive pool, because the receiver's shares never exceed the sender's |
| `Safety.FindsStream` | src/connection/streams.rs:101-132 | the frame at the front of a channel finds, by its ID, the incarnation it was sent for, or starts it |
| `Safety.OpenReuse` | src/connection/streams.rs:76-85 | after opening, every older stream with an ID that is used again is one that the opener has seen close |
| `Delivery.Conservation` | src/stream/outbound.rs:196-241 | in every run, the sender's count is the receiver's count, the data and credit in flight, and the bytes forgotten because of `FIN_READ` |
| `Delivery.Integrity` | src/stream/outbound.rs:103-193 | in every run, what was written is what was read, what waits at the reader, what is in flight and what waits at the writer, in this order; the end comes after all of it |
| `Delivery.NoDeadlock` | src/stream/outbound.rs:312-360 | if nobody is awake, nothing is in flight and all is read, then nothing waits, both queues are empty, both pools are unused, and both ends agree on a count below the credit threshold |
| `Delivery.NoLeak` | src/connection/streams.rs:141-164 | at quiescence, a stream whose halves one side dropped, also with data unsent, is in no table, no selector and no queue of either side |
| `Observed.ReadsWhatWasWritten` | src/stream/inbound.rs:74-109 | in every run, over what the applications did and were told: parts arrive as they were sent, each read returns the data of one part, and what reads returned is a prefix of what accepted writes passed in, and all of it at the end or at quiescence unless the reader stopped |
| `Progress.DrainingTerminates` | src/connection/active.rs:125-154 | no sequence of polls, deliveries and reads is longer than the rank of the state it starts from |
| `Progress.StuckIsQuiet` | src/stream/updates.rs:44-93 | if no such step is possible, nobody is awake, nothing is in flight, and everything that arrived is read |
| `Progress.EverythingArrives` | src/connection/active.rs:95-154 | from any state of any run, in any order, these steps end, and then every reader that did not stop has read exactly what was written |
| `Observed.EverythingIsRead` | src/connection/active.rs:95-154 | the same for what the applications see: at the end of these steps, the chunks that reads returned are exactly the bytes that the writes of the peer took |
| `Progress.PollBusy` | src/stream/updates.rs:44-93 | a poll that yields nothing lowers the number of queued streams plus twice the number of woken ones |
| `Guarantees.NoLostWakeup` | src/stream/conn_flow.rs:36-40 | with any peer: room in the pool means that the front of the queue is awake, a queued closed stream is awake, a sleeping stream with data has no base room, a finished stream is not queued |
| `Guarantees.PoolAccounting` | src/flow.rs:115-132 | with any peer: the use of each pool is the sum of what the streams borrow and within its size, no subtraction underflows, and a closed stream holds nothing |
| `Guarantees.MemoryBound` | src/config.rs:87-91 | with any peer: there are never more live streams than the two limits permit, and all unread data is at most a base window per live stream, and the pool, so at most what the configuration alone determines |
| `Bypass.BoundedBypass` | src/stream/turns.rs:30-46 | while a stream waits for its turn, only streams ahead of it borrow, each at most once, and nobody gets ahead of it |
| `Bypass.OneFramePerTurn` | src/stream/outbound.rs:334-358 | one poll borrows at most one frame |
| `Local.AnyPeer` | src/connection/streams.rs:90-164 | until a violation is reported, every operation keeps the invariant of one side, whatever the peer sends |
| `Local.DoKeeps` | src/connection/streams.rs:76-164 | one operation of one side keeps its invariant |
| `Tables.RoomForOne` | src/connection/streams.rs:115-130 | if the opener stays within its limit, the acceptor has a slot for the stream that arrives |
| `Tables.WithinLimits` | src/connection/streams.rs:76-124 | neither table ever exceeds its limit, whatever the peer does |
| `Tables.OpenKeeps` | src/connection/streams.rs:76-85 | opening a stream keeps the tables consistent: every live stream is found under its own ID, and only there |
| `Tables.ReceiveKeeps` | src/connection/streams.rs:90-145 | so does a frame, also if it closes or starts a stream |
| `Tables.PollKeeps` | src/connection/streams.rs:148-164 | so does a poll, also if it sends the last `FIN_*` |
| `Wakeups.PollKeeps` | src/stream/updates.rs:44-111 | a poll keeps the invariant of the wake-ups |
| `Wakeups.ReceiveKeeps` | src/stream/handle.rs:24-48 | so does a frame |
| `Wakeups.CallKeeps` | src/stream/outbound.rs:103-147 | so does a call of the application |
| `Pools.PollKeeps` | src/stream/outbound.rs:312-360 | a poll keeps both pools equal to the sum of the shares, and within their sizes |
| `Pools.ReceiveKeeps` | src/stream/inbound.rs:159-193 | so does a frame that is accepted |
| `Pools.ReceiverStaysWithin` | src/stream/inbound.rs:236-242 | if no stream counts more at the receiver than at the sender, the next data fits into the receiver's pool |
| `Links.ReceivedKeeps` | src/stream/handle.rs:24-48 | a frame in flight is accepted, and keeps both directions of its stream consistent with what is still in flight |
| `Links.PollKeeps` | src/stream/updates.rs:44-93 | so does a poll, which appends to what is in flight |
| `Direction.PollOutKeeps` | src/stream/outbound.rs:152-193 | what a sender sends keeps conservation, integrity and the order of `FIN_WRITE` |
| `Direction.PollInKeeps` | src/stream/inbound.rs:132-156 | what a receiver returns keeps conservation and the order of `FIN_READ` |
| `Direction.DataArrives` | src/stream/inbound.rs:159-227 | data and `FIN_WRITE` that arrive in order are refused only if the pool is overdrawn, which `Safety.PoolSuffices` excludes, and keep conservation and integrity |
| `Direction.CreditArrives` | src/stream/outbound.rs:196-269 | credit and `FIN_READ` that arrive in order are accepted, and keep conservation |
| `Direction.ReadKeeps` | src/stream/inbound.rs:74-109 | reading keeps conservation and integrity |
| `Direction.ReadTakes` | src/stream/inbound.rs:74-109 | a read returns data exactly if some is unread, namely its oldest chunk, which is added to what was taken; it ends exactly if the direction is closed, and otherwise changes nothing |
| `Direction.CloseReadingKeeps` | src/stream/inbound.rs:112-125 | so does closing the reader |
| `Direction.WriteKeeps` | src/stream/outbound.rs:103-115 | so does writing |
| `Direction.WriteTakes` | src/stream/outbound.rs:103-115 | a write is accepted exactly if the direction is open and nothing waits, and then what waits is what was passed in; it breaks exactly if the direction is not open; a refusal changes nothing |
| `Direction.CloseTakes` | src/stream/outbound.rs:130-147 | a closed half is not open; closing the writer loses nothing that was accepted |
| `Direction.CloseWritingKeeps` | src/stream/outbound.rs:130-147 | so does closing the writer |
| `Direction.EndMeansEverything` | src/stream/inbound.rs:84-101 | a reader that sees the end has read all that was accepted |
| `History.LogsDetermine` | src/stream/updates.rs:44-93 | with any peer and any application: what was passed in and returned, and which parts were sent and received, determines what waits, what is in flight, what is due for credit, which `FIN_*` were exchanged, whether each half is open, and where `SYN` goes |
| `Answers.WriteAnswers` | src/stream/outbound.rs:103-115 | from the log alone: a write is accepted, not ready or broken exactly if the writer is open and everything before was sent, open with something unsent, or closed |
| `Answers.ReadAnswers` | src/stream/inbound.rs:74-109 | from the log alone: a read returns the data of the oldest part that was not read, ends exactly if the reader stopped or all data before `FIN_WRITE` was read, and waits otherwise |
| `Answers.PollAnswers` | src/stream/updates.rs:44-93 | from the log alone: a poll yields exactly the credit that is due from the threshold on, the most data that the rules permit, `FIN_READ` and `FIN_WRITE` as soon as they can go, and nothing if all of that is nothing |
| `Answers.OpensExactly` | src/connection/streams.rs:76-85 | a stream starts exactly if fewer than the limit of those that this side started are not done on both sides; its ID is in use by none of them and has the parity of the side |
| `Answers.RefusesExactly` | src/connection/streams.rs:90-145 | a part is refused if and only if the peer is guilty of something, judged by what it sent and was sent before: no `SYN` for an unknown stream, `SYN` for a live ID or one of ours, too many streams, anything after the `FIN_*` that ends it, credit for more than is in flight, an overdrawn pool; the violation that is reported is the first one in the order in which a frame is processed |
| `Answers.AnyPeerIsAnswered` | src/connection/streams.rs:90-145 | that holds in every state of every run of one side with any peer |
| `Answers.OwnSideIsAnswered` | src/connection/streams.rs:76-156 | so do the exact answers to writes, reads, polls and opening |
| `Reasons.WokenForAReason` | src/stream/conn_flow.rs:36-40 | no spurious wake-up: whoever an operation wakes has something to send, is first in line while the pool has room, or was just created or polled with success |
| `Planning.SendsTheMost` | src/stream/outbound.rs:312-360 | the sender sends the largest number of bytes that the rules permit: within the base window, or with the turn, within the allowance and the pool |
| `Planning.QueuesWhenItHelps` | src/stream/outbound.rs:312-360 | the stream is in the queue afterwards exactly if a turn can help it, and nobody else's membership changes |
| `Flow.CreditThreshold` | src/flow.rs:36-38 | below the threshold there is always room in the base window |
| `Flow.ThresholdAtMostHalf` | src/flow.rs:32-38 | the threshold is at most half of the window exactly for windows of two bytes and more |
| `Flow.ThresholdIsLargest` | src/flow.rs:36-38 | the threshold is the largest number within 32 KiB and within half of the window, or one |
| `Flow.Window.Add` | src/flow.rs:115-117 | the pool follows the share of the stream |
| `Flow.Window.Set` | src/flow.rs:122-132 | the pool follows the share of the stream, and the result tells exactly if the pool got something back |
| `ConnFlow.Turns.Join` | src/stream/turns.rs:37-39 | joins at the back, at most once |
| `ConnFlow.Turns.Leave` | src/stream/turns.rs:44-46 | leaves from anywhere, and the others keep their order |
| `ConnFlow.Turns.WakeFront` | src/stream/turns.rs:49-53 | wakes the first in line, and nobody else |
| `ConnFlow.ConnFlow.PassTurn` | src/stream/conn_flow.rs:36-40 | does what `SharedFlow.PassTurn` says, in place |
| `TurnQueue.LeaveMembers` | src/stream/turns.rs:44-46 | leaving removes one stream and keeps the queue free of duplicates |
| `Sending.Ledger.Plan` | src/stream/outbound.rs:312-360 | does what `Outbound.Plan` says to the window, the pool, the queue and the wake-ups, in place |
| `Sending.OutboundTraffic.Write` | src/stream/outbound.rs:103-115 | data is accepted exactly if the direction is open and nothing waits, and then all of it waits as it was passed in; a refusal changes nothing; the task is woken exactly if some data was taken |
| `Sending.OutboundTraffic.CloseWriting` | src/stream/outbound.rs:130-147 | closes at once, or after the data that waits, none of which is lost; the direction is not open afterwards |
| `Sending.OutboundTraffic.PollUpdate` | src/stream/outbound.rs:152-193 | yields what `Outbound.PollOut` says, with the same effect on all that is shared |
| `Sending.OutboundTraffic.ReceivedWindowUpdate` | src/stream/outbound.rs:196-231 | credit is taken back, or refused after `FIN_READ` or beyond what is in flight, with nothing changed |
| `Sending.OutboundTraffic.ReceivedFinRead` | src/stream/outbound.rs:235-241 | forgets what is in flight and returns the share of the pool, or refuses a second `FIN_READ`, with nothing changed |
| `Sending.OutboundTraffic.CloseReadingSide` | src/stream/outbound.rs:248-269 | closes the direction and wakes its task, once |
| `Receiving.InboundTraffic.PollRead` | src/stream/inbound.rs:74-109 | returns the oldest unread chunk, and leaves the others; waits exactly if there is none, and ends exactly if the direction is closed; the task is woken exactly if the direction closes or credit is due |
| `Receiving.InboundTraffic.CloseReading` | src/stream/inbound.rs:112-125 | closes, drops the unread data and remembers whether `FIN_WRITE` was received |
| `Receiving.InboundTraffic.PollUpdate` | src/stream/inbound.rs:132-156 | returns credit once it reaches the threshold, or `FIN_READ`, which returns the share of the pool |
| `Receiving.InboundTraffic.ReceivedData` | src/stream/inbound.rs:159-193 | keeps, counts, discards or refuses data, depending on which `FIN_*` were sent and received; refused data is counted only if it overdraws the pool |
| `Receiving.InboundTraffic.Count` | src/stream/inbound.rs:236-242 | counts the data, and reports exactly if the pool is overdrawn |
| `Receiving.InboundTraffic.ReceivedFinWrite` | src/stream/inbound.rs:196-226 | half-closes or closes, and refuses a second `FIN_WRITE`, with nothing changed |
| `StreamTask.StreamState.PollProgress` | src/stream/updates.rs:44-93 | one poll of the task: credit first, then data, merged into one part, with `SYN` in the first one only |
| `StreamTask.StreamState.ReceivedFrame` | src/stream/handle.rs:24-48 | applies `WINDOW`, `DATA`, `FIN_WRITE` and `FIN_READ` in this order, and stops at the first violation |
| `StreamTask.StreamState.FinState` | src/stream.rs:108-118 | both directions together |
| `StreamTask.StreamState.Call` | src/stream/outbound.rs:103-147 | a call of the application does what `Endpoint.Called` says and returns what `Endpoint.AnswerTo` says, and wakes the task exactly when `Endpoint.CallWakes` says so |
| `StreamTable.Streams.constructor` | src/connection/streams.rs:44-53 | a connection starts with empty tables and unused pools |
| `StreamTable.Streams.StartOutbound` | src/connection/streams.rs:76-85 | starts a stream in a free slot, or refuses at the limit or without IDs, and keeps the invariant of the side |
| `StreamTable.Streams.ReceivePart` | src/connection/streams.rs:90-145 | does what `Endpoint.Receive` says, with the same violations, and keeps the invariant of the side |
| `StreamTable.Streams.PollUpdate` | src/connection/streams.rs:148-156 | polls woken tasks, each with the allowance of its time, until one yields: it ends, what it yields is legal, and if nothing is yielded nobody is awake |
| `StreamTable.Streams.PollTask` | src/stream/updates.rs:44-111 | polling a task is `Endpoint.Poll`, and keeps the invariant of the side |
| `StreamTable.Streams.Settle` | src/stream/updates.rs:86-111 | a task that yielded is woken again, or is removed and passes its turn if both `FIN_*` are sent |
| `StreamTable.Streams.Remove` | src/connection/streams.rs:158-164 | only the entry of this ID goes |
| `StreamTable.Streams.Calls` | src/stream/outbound.rs:103-147 | a call of the application changes only its own stream and the wake-ups |
| `StreamTable.Streams.Find` | src/connection/streams.rs:101-132 | the stream of a frame is found, created, or refused, also at the limit of inbound streams (`Answers.RefusesExactly` says when) |
| `Yields.YieldsLegal` | src/stream/updates.rs:44-93 | in any state a stream yields something, within the frame limit and 32 bits of credit, and never credit along with `FIN_READ` |
| `Yields.PollsMore` | src/connection/active.rs:125-154 | polling a woken stream never adds to what is left to do, and yielding a part reduces it |
| `Connection.ComposesLegal` | src/connection/active.rs:130-147 | a composed frame is one that the encoder takes and the decoder of the peer accepts; it carries the `PING`, the `PONG` and every field of the part, and the peer finds in it the part that was sent |
| `Connection.ReadsFields` | src/connection/active.rs:117-120 | what a received frame says to a stream is what its fields say, one by one |
| `Connection.Active.Compose` | src/connection/active.rs:130-150 | the frame carries exactly the `PONG` that was owed, the `PING` if one was due, and the next stream part, and the exchange goes on from there; it is empty only if there is nothing to send, and then nothing changes |
| `Connection.Active.SendOne` | src/connection/active.rs:126-152 | one round: a legal frame with what is owed and due goes to the codec and less is left to do, or nothing is taken, because the transport refused or nothing is there |
| `Connection.Active.PollSend` | src/connection/active.rs:125-154 | the loop ends; exactly the parts that woken streams yielded went to the codec, in order, in legal frames, each with the `PONG` and `PING` of its time (`Exchange.Paced`); it stops only if nothing waits, or if the transport refused a frame that it still holds |
| `Connection.Active.Process` | src/connection/active.rs:95-122 | the `PING` is remembered, and the exchange changes in nothing else; then the stream part is processed as `Endpoint.Receive` says |
| `Connection.Pings.TakeFramePart` | src/connection/pings.rs:49-56 | what is owed and due is taken once, and a `PING` restarts the count and the interval |
| `Connection.Pings.ReceivedPing` | src/connection/pings.rs:41-43 | a newer `PING` replaces one that was not answered |
| `Connection.Pings.DataSent` | src/connection/pings.rs:113-116 | data counts towards the next `PING`, up to 32 bits |
| `Exchange.AnswersOnce` | src/connection/pings.rs:41-56 | of all frames that a run of the send loop takes, the first one answers the latest `PING` and carries the one that is due, and no other frame carries a `PONG` |
| `Exchange.PingsWhenDue` | src/connection/pings.rs:99-116 | every later frame carries a `PING` exactly if enough data was sent since the last one, and saturation of the counter never matters |
| `Connection.Active.StartStream` | src/connection/active.rs:59-61 | opens a stream as `Endpoint.OpenOutbound` says |
| `Connection.Active.UseStream` | src/stream/outbound.rs:103-147 | a call of the application, as `Endpoint.Call` says, and its answer |
| `Renaming.PollSame` | src/stream/turns.rs:30-53 | under other names, a poll does the same and yields the same, up to the name |
| `Renaming.ReceiveSame` | src/connection/streams.rs:90-145 | under other names, a frame does the same, with the same violations; a frame for an old stream does not use its tag |
| `Renaming.OpenSame` | src/connection/streams.rs:76-85 | under other names, opening gives the same ID |
| `Joined.RunSimulates` | src/connection/active.rs:95-154 | every run of two sides with names of their own is a run of the system under other names |
| `Joined.JoinedNeverFail` | src/connection/streams.rs:90-164 | two such sides never fail each other, and every state they reach mirrors a reachable state of the system |
| `Wired.Arrives` | src/connection/active.rs:95-122 | a connection object that gets the next part of the channel in a frame reports no violation, and stays an end of the run |
| `Wired.Processes` | src/connection/active.rs:95-122 | so does one that gets a frame without a stream part |
| `Wired.SendsOn` | src/connection/active.rs:125-154 | after the send loop, the object is still an end of the run, and the channel has grown by what the frames carry |
| `Crossing.PollCrosses` | src/wire/codec.rs:96-193 | whatever part of the output has come over, and however it was split: a poll of the decoder waits, or yields the next frame that the peer wrote, whose part is the front of the channel |
| `Crossing.PrefixCode` | src/wire/header.rs:159-247 | bytes that start with the encoding of some frames can only be read as these frames first |
| `Crossing.SendCrosses` | src/wire/codec.rs:224-248 | what the sender takes and writes goes to the end of the channel, also if it stamps a waiting frame again |
| `Wire.Drive` | src/connection/active.rs:95-154 | two connections, their decoders and two byte transports, under any schedule of opening, using, timers, sending, carrying and polling: neither reports a violation, they stay in a state that a run of two endpoints leads to, and the answers that the applications got fit together (`Transcript.Mates`): whatever one reads is what the other wrote into the stream with this ID, in order |
| `Wire.SoundEchoes` | src/connection/active.rs:108-116 | in every such state, each `PONG` that a side has read echoes the time of a `PING` that this side has written |
| `Transcript.HeardWasSaid` | src/connection/active.rs:95-154 | in every run of two sides: their streams belong together one to one, with equal IDs; what reads returned on one is a prefix of what writes took on the other, and all of it if a reader that did not stop sees the end |
| `Wire.ReceiveAt` | src/connection/active.rs:95-122 | one poll of a decoder, and processing what it yields |
| `Wire.SendAt` | src/connection/active.rs:125-154 | one run of the send loop |
| `Wire.CarryAt` | src/wire/codec.rs:224-248 | the transport carries some bytes over, and splits them as it likes |
| `Wired.Starts` | src/connection/active.rs:59-61 | opening a stream keeps the object an end of the run |
| `Wired.Uses` | src/stream/outbound.rs:103-147 | so does a call of the application |
| `Connection.WireIsChannel` | src/wire/codec.rs:96-248 | for every split of writes and reads, the peer reads the parts that went to the codec, in order, and nothing else |
| `Headers.BitsRoundTrip` | src/wire/header.rs:13-34 | the flags are recovered from their bits |
| `Headers.FlagsRoundTrip` | src/wire/header.rs:71-82 | bits without reserved ones are recovered from the flags |
| `Headers.Masks` | src/wire/header.rs:13-34 | the mask of every single flag |
| `Headers.ValidateExactly` | src/wire/header.rs:71-82 | exactly the bits of valid flags are accepted |
| `Headers.EncodedLength` | src/wire/header.rs:47-62 | an encoded header is as long as its flags announce, at most 18 bytes |
| `Headers.DecodeEncode` | src/wire/header.rs:159-247 | decoding what was encoded gives back every legal header |
| `Headers.EncodeDecode` | src/wire/header.rs:159-247 | encoding what was decoded gives back every accepted input, and what is accepted is legal |
| `Layout.EncodeLaysOut` | src/wire/header.rs:159-187 | bytes are the encoding of a header if and only if they are laid out field by field: a reserved zero byte, the flags, the ID, the credit, the length, the times of `PING` and `PONG`, each number with its most significant byte first |
| `Layout.ParsesExactly` | src/wire/codec.rs:96-193 | a frame is read from some bytes if and only if they start with the layout of this legal frame, header and then payload |
| `Layout.RefusesFlags` | src/wire/header.rs:71-82 | two bytes are refused exactly if a reserved flag is set, if none is, or if `TERM` is not alone, each with its own error |
| `Layout.RefusesFields` | src/wire/header.rs:195-247 | with valid flags, a frame is refused exactly if its credit or its length is zero or its length exceeds the limit, in this order, with the last byte of the header |
| `HeaderBuffer.EncodeInto` | src/wire/header.rs:159-187 | the buffer starts with the encoding, laid out as `Layout.LaidOut` says, and the result is its length |
| `HeaderBuffer.Writer.Put` | src/wire/header.rs:255-260 | appends at the cursor |
| `HeaderBuffer.DecodeFrom` | src/wire/header.rs:195-247 | a header is decoded exactly if it is the legal one with these flags that is laid out like these bytes |
| `HeaderBuffer.Reader.Take` | src/wire/header.rs:267-276 | takes the bytes at the cursor |
| `Frames.ParseWhole` | src/wire/codec.rs:96-193 | a legal frame is read back whatever follows it |
| `Frames.ParsePart` | src/wire/codec.rs:96-193 | no part of a legal frame is a frame or an error |
| `Frames.ParseSound` | src/wire/codec.rs:96-193 | whatever is accepted is a legal frame, and these bytes are its encoding |
| `Decoder.FrameReader.constructor` | src/wire/codec/decoder.rs:30-39 | the decoder starts with an empty buffer, waiting for flags |
| `Decoder.FrameReader.PollNextFrame` | src/wire/codec.rs:96-193 | a poll reads some bytes and never past the end of a frame: it yields the frame they are, fails exactly if they cannot become one, or waits, and that only if the transport had nothing more |
| `Decoder.FrameReader.ReadOnce` | src/wire/codec.rs:101-190 | one read, in the header or in the data |
| `Decoder.FrameReader.FeedHeader` | src/wire/codec.rs:112-160 | flags first, which tell the length of the rest |
| `Decoder.FrameReader.FeedData` | src/wire/codec.rs:163-190 | the frame is complete exactly with its last byte |
| `Decoder.DecodesAll` | src/wire/codec.rs:96-193 | for every split into reads and every number of polls: exactly the frames, in order; the end is clean only between frames and an error within one |
| `Encoder.LegalWhenStamped` | src/wire/codec/encoder.rs:68-100 | exactly the frames that the encoder takes become frames that the decoder accepts |
| `Encoder.EncoderItem.constructor` | src/wire/codec/encoder.rs:68-100 | the header of a new item is encoded, with time 0 |
| `Encoder.EncoderItem.Stamp` | src/wire/codec/encoder.rs:117-123 | only the time of the `PING` changes, and not the length |
| `Encoder.EncoderItem.Remaining` | src/wire/codec/encoder.rs:126-128 | what the transport has not accepted yet |
| `Encoder.EncoderItem.Slices` | src/wire/codec/encoder.rs:131-146 | at most two slices, none empty, that are together the unwritten rest of the frame |
| `Encoder.EncoderItem.Advance` | src/wire/codec/encoder.rs:149-152 | moves on by what was accepted |
| `Encoder.FrameWriter.StartSend` | src/wire/codec.rs:261-269 | takes one frame when it holds none |
| `Encoder.FrameWriter.Restamp` | src/wire/codec.rs:231-234 | the time of a `PING` is the current one until a byte of its frame is accepted |
| `Encoder.FrameWriter.WriteOnce` | src/wire/codec.rs:226-245 | one write: the output stays a sequence of frames, of which the last may be unfinished |
| `Encoder.FrameWriter.PollWritePending` | src/wire/codec.rs:224-248 | the output only grows, finished frames stay as they are, and the loop is done exactly when the frame is written to the end; otherwise the transport refused it or accepted nothing |
| `Encoder.FrameWriter.PollFlush` | src/wire/codec.rs:271-277 | flushed only after everything is written |
| `Encoder.FrameWriter.PollClose` | src/wire/codec.rs:279-285 | shut down only after everything is written |
| `Encoder.CodecRoundTrip` | src/wire/codec.rs:96-248 | for every pattern of partial and refused writes and every split into reads, the peer yields the frames that were written; each `PING` carries the time when the first byte of its frame was accepted |
| `Downgrade.Downgraded.PollRecoverWriter` | src/connection/downgrade.rs:60-89 | the pending frame is finished, then comes exactly one `TERM`, and nothing after it; then flush or shutdown |
| `Downgrade.Downgraded.PollRecoverReader` | src/connection/downgrade.rs:91-110 | frames are dropped up to the `TERM` of the peer, and no byte after it is taken; it fails only if that is not what the peer sent |
| `Downgrade.Downgraded.Poll` | src/connection/downgrade.rs:120-140 | done only when both directions are; then the transport is clean, and no byte of what the peer sent after its `TERM` is lost; it waits only if a transport refused |
| `Downgrade.Downgraded.WithShutdown` | src/connection/downgrade.rs:50-53 | possible at any time |
| `Downgrade.ReadsToTerm` | src/connection/downgrade.rs:91-110 | reading up to `TERM` never fails, and ends exactly after it |
| `Downgrade.CleanDowngrade` | src/connection/downgrade.rs:60-140 | one direction: all frames before the `TERM` are read, and the raw bytes after it are all left |
| `Downgrade.WriterMeetsReader` | src/connection/downgrade.rs:60-110 | once the writer of one object has recovered, the reader of the other is at the raw bytes, or finds them after the frames it still has to drop |
| `Downgrade.CleanBothWays` | src/connection/downgrade.rs:120-140 | two objects, polled in any order: the same in both directions at once, so that when both are done each transport holds exactly the raw bytes of the peer |
| `PinLists.PinList.PushBack` | src/pin_list.rs:136-163 | appends an element that is in no list; other lists and other owners do not change |
| `PinLists.PinList.Unlink` | src/pin_list.rs:206-229 | takes out the element at any place and keeps the order of the rest; other lists do not change |
| `PinLists.PinList.Remove` | src/pin_list.rs:168-184 | takes out the element if it is in this list, and tells whether it was |
| `PinLists.PinList.PopFront` | src/pin_list.rs:187-191 | takes out the first element |
| `PinLists.PinList.Drop` | src/pin_list.rs:248-252 | frees all elements |
| `PinLists.PinList.Iter` | src/pin_list.rs:194-199 | following the links gives the elements in order |
| `PinLists.InOneList` | src/pin_list.rs:125-127 | an element is in at most one list |
| `DataLists.DataList.PushBack` | src/buffer.rs:157-175 | appends a chunk, and drops an empty one |
| `DataLists.DataList.PopFront` | src/buffer.rs:136-150 | takes the first chunk; the link of the tail is never followed |
| `DataLists.DataList.IsEmpty` | src/buffer.rs:178-180 | empty exactly without chunks |
| `StreamId.FromSlabIdx` | src/stream_id.rs:39-44 | every slot below 2^15 has an ID, which gives back the slot and the role |
| `StreamId.IdRoundTrip` | src/stream_id.rs:14-44 | every ID comes from exactly its slot and role |
| `Rate.RateEstimate.Credit` | src/flow/rate.rs:34-41 | the estimate is decayed and credit is added, in place |
| `Rate.EstimateIsWeighted` | src/flow/rate.rs:28-41 | with a constant round trip time, the incremental estimate is the sum of all credit, each weighted by its age |
| `Rate.UnprovenStaysWithin` | src/stream/outbound.rs:213-219 | in any run, a stream that got no credit since the first sample stays within its base window |
| `Rate.BorrowsAtMostTwice` | src/flow/rate.rs:45-47 | in any run whose samples do not grow, a stream borrows at most twice the credit it received |
| `Rate.AllowanceRescales` | src/stream/outbound.rs:326-339 | in any run, the allowance is at most twice the credit, each rescaled by the change of the round trip time since, and a poll borrows more than before only within it |
| `Growth.TwiceExactlyWhenTame` | src/flow/rate.rs:45-47 | for any base window, frame limit, pool and samples: at most twice the credit is borrowed in every run exactly if, for every growth from one sample to a later one, the pool is at most twice the credit that makes the growth worth a byte |
| `Growth.TwiceExactlyWithoutGrowth` | src/flow/rate.rs:45-47 | it holds for every size of the pool exactly if no sample is larger than an earlier one |
| `Growth.TinyPoolIsTame` | src/flow.rs:50-55 | with a pool of at most two bytes no growth matters |
| `Growth.GrowthBreaksTheBound` | src/stream/outbound.rs:326-358 | in all other cases, a run with this pool and these samples that borrows one byte more |
| `Growth.TameBounded` | src/stream/outbound.rs:326-358 | in a tame run, the rate is at most what the credit was worth at the least sample, and the stream borrows at most twice the credit |
| `Growth.NeedExactly` | src/flow/rate.rs:34-47 | the least credit that a growth makes worth one byte more than twice itself |

## Left out

- Tokio transports, timers, contexts and wakers: a transport is a script of answers, and a wake-up is a flag.
- The locks of the streams: every locked section is one atomic step.
- The wakers of the application tasks (`WakerSlot`), `poll_write_ready`, `poll_flushed` and the duplex handles: thin wrappers.
- `StreamHandle::abort` and the streams after the connection is gone.
- The schedule of the `PING`s beyond what is due: whether the interval has elapsed is up to the environment.
- `Srtt`, the clock, and floating point rounding: the round trip time is any positive real, and the decay any function that is multiplicative and between 0 and 1.
- The timeout of inbound frames, and errors of the transport other than its end and a write of zero bytes.
- The validation of the configuration and the limits of 64-bit counters: counters are unbounded.
- The internals of the selector, the slab and the hash map: any woken task, any free slot as the slab chooses it, and maps.
- Memory layout and reference counts in `src/buffer.rs` and `src/pin_list.rs`: nodes are heap objects with link fields.
- ConnFlow.Turns.Join: the queue is a sequence of references there. That the intrusive list behaves like one is proved separately, in `PinLists`.
- ConnFlow.Turns.Leave: likewise.
- Receiving.InboundTraffic.PollRead: the unread chunks are a sequence there. That the list of chunks behaves like one is proved separately, in `DataLists`.
- StreamTable.Streams.ReceivePart: says nothing about the state after a violation, which ends the connection.
- StreamTask.StreamState.ReceivedFrame: likewise.
- Connection.Active.Process: does not model the round trip sample that a `PONG` gives.
