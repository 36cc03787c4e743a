# nperf: the test protocol and its measurements

nperf measures throughput between a client and a server. The two share one control connection and open a
number of data streams (TCP, TLS, UDP or QUIC); each runs an event loop that answers readable and writable
events. This project models both event loops, the unframed control connection between them, the counters
they keep, the client's bitrate pacer and the parsing of rates, and proves what these promise.

`dafny verify dfyconfig.toml` checks everything.

## How it is laid out

| module | what it holds |
|---|---|
| `Wire` | states and their bytes, `drain_message` |
| `Rate` | command-line rates |
| `Datagram` | the number at the head of a UDP datagram |
| `Stats`, `Loss` | one stream's counters, intervals, loss and retransmits |
| `Session` | a whole test on one endpoint: the send and receive loops, `start`, `end`, three levels of counters |
| `Pacing`, `Limits` | the bitrate bound, and exactly when it is kept |
| `Endpoints` | how each side answers one event, whatever its peer does |
| `World` | client, server and network together, one event delivery per step, in any interleaving |
| `LockStep` | the invariant of the protocol and what follows from it |
| `Delivery`, `Outcome` | bytes and datagrams from end to end, the control transcript, the results |
| `Progress` | no deadlock, and a bound on the length of every run |
| `Timing` | elapsed times, and intervals that adjoin |
| `Recorder`, `Server`, `Client` | `PerfStream`, `Test`, `ServerImpl` and `ClientImpl` as objects updated in place |
| `ServerLaws`, `ClientLaws` | what each event loop promises for any events: what it answers, when it ends and finalises a test, what it does without its peer |
| `Arithmetic` | facts about products and remainders |

Every operation exists once as a function on values, which the theorems are about. The classes in `Recorder`, `Server`
and `Client` keep the fields and loops of the code, and each of their methods is proved to do to its object what
the function does to the value. The event loops are proved to be functions of what their polls bring: `Server.ServerImpl.Run` of
the batches of events, with the rest of a batch dropped where the code drops it and the idle timeout, and `Client.ClientImpl.Run`
of control events and stream events, both with everything they write on the control connection. `Endpoints.PollsAreRuns` and
`Client.EventsAreRuns` show that these functions lead where runs of single events lead, which the theorems speak of.
Bursts of the send and receive loops are the runs of their single turns (`Session.WriteAllIsAfterAll`,
`Session.ReadAllIsAfterAll`, `Endpoints.SendsAreWriteAll`, `Endpoints.SinglesAreReadAll`, `Client.LoopThroughIsRun`,
`Client.BurstGoesOn`).

## Main results

* Lock step (`LockStep.AlwaysInStep`). The client drains four state bytes without looking at them. In every
  reachable state such a byte equals the client's own state, and neither direction of the control connection
  ever holds two messages, which is what an unframed drain needs (`Wire.DrainIsOneMessageIff`).
  Its assumption is exact: `LockStep.HandlerNeedsMessageIff` shows that a writable-only event in
  any of three client states breaks lock step, in every reachable state; `LockStep.WritableOnlyBreaks` is the first such run.
* Progress (`Progress.NeverStuckIff`, `Progress.RunsAreBounded`, `Progress.RunsEndDone`). No reachable state is stuck unless
  both sides have returned, exactly when at least one stream is asked for; every run is bounded in advance. Here the client can
  conclude its test as soon as a reading of the clock is late; in the code a write has to be blocked, or an interval pushed, as well.
* Results (`Outcome.ResultsAgree`, `Outcome.BytesConserved`). The client's peer figures are the server's final ones, they are sums
  over the peer's streams, and they never exceed what was sent; for UDP that includes what was lost.
* Loss (`Loss.ReceiverLossIff`, `Loss.ReceiverLossIsExact`). For every sequence of datagram numbers and every placement of
  interval boundaries, the stream's total is the number of datagrams up to the highest seen that never arrived exactly when those
  that did arrive were all different and the highest came last; each interval's record is right exactly when the same holds of
  the interval. With rising numbers all of them are right.
* Three levels of counters, interval logs and retransmits over whole runs (`Session.RunKeepsThreeLevels`,
  `Session.RunKeepsLogs`, `Session.EndTotalsRetrans`).
* Pacing (`Limits.PacingBoundIff`). Over any duration T in seconds, with target B, a stream sends at most
  (B + 1) T + 8 length (T + 1) bits. Every run of the send loop keeps this exactly when the target is one that can act and no
  block or byte limit is in reach of the test's time (or there is nothing to write). `Limits.InReach` says what is in reach
  in terms of the settings and the number of streams alone, for byte streams, which may take a part of a block, and for
  datagrams, which go out whole; `Limits.ReachIsBounded` and `Limits.ReachIsAtLeast` enclose it by formulas,
  and `Limits.FarOffHolds` is the bound under the first of them. `Pacing.PacingBound` is the bound up to the
  moment at which a limit is reached.
* The end of a test (`ClientLaws.EndsOnlyWhenOver`, `ClientLaws.BurstEndsIff`). Over any polls a client announces the end only after
  its counts have reached a limit or a reading of the clock more than the test's time after the event that made it run, and a
  burst that ends so does announce it.
* Finalisation exactly once. For every sequence of events from an arbitrary peer each side finalises at most
  once (`Endpoints.ServerFinalisesOnce`, `Endpoints.ClientFinalisesOnce`), and a side that gets past its test has finalised it
  with nothing left in an open interval (`ServerLaws.ServerFinalisesIff`, `ClientLaws.ClientFinalises`).
* Times (`Timing.EndTimes`, `Outcome.PeerTimes`). A stream's elapsed time runs from its creation to its own end and covers its interval
  log; a test's runs from its start to its end; both reach the peer.

## Properties that do not hold without a condition

* Lock step fails if a handler that ignores the kind of event is called on a writable-only one (`LockStep.HandlerNeedsMessageIff`,
  `LockStep.WritableOnlyBreaks`).
* A test with no streams deadlocks (`Progress.NoStreamsDeadlock`).
* A rate wraps when its number of bits does not fit in 64 (`Rate.RateRoundTrip`).
* A datagram shorter than eight bytes usually loses its number (`Datagram.NumberSurvivesIff`).
* A duplicate makes the stream's loss wrong. A datagram that arrives in a later interval than it belongs to makes that
  interval's record wrong, and the stream's total only if the highest number does not come last (`Loss.ReceiverLossIff`).
* On the sending side the loss subtraction wraps in every interval (`Loss.SenderLossWraps`).
* With a block or byte limit that can be reached before the time is over, or for two targets, the send loop has a run within the
  test's time that exceeds the bitrate bound (`Limits.FloodBreaksPace`; `Pacing.LimitUnpaces` and `Pacing.PacerActsIff` say why). A
  test with such a limit runs for up to 3600 seconds (src/test.rs:538-545).
* A server that drains the byte of `ExchangeResults` or `End` while its test is running skips the end of it (`ServerLaws.ServerFinalisesIff`).
* A lost connection goes unnoticed by a server that is creating streams or draining cookies (`ServerLaws.LostClient`), and a
  client that waits for results from a server that is gone waits for ever (`ClientLaws.LostResults`).
* A drained message that is not plain ASCII can make `drain_message` panic, depending on where it is cut (`Wire.ReadsHoweverIff`).

## Assumptions

* Integer arithmetic is that of a release build: `lost` wraps at 2^64, `retr` at 2^32, the cookie count at 2^8. Byte and
  block counters are unbounded, with fewer than 2^64 writes in a run where it matters.
* Clock readings, kernel retransmit totals, the outcomes of reads and writes and the contents of the sockets are parameters.
  Time is in nanoseconds. One reading stands for the successive readings within `start`, and one for
  the end and elapsed time of a stream within `end`. The rate is the exact quotient, rounded down and cut off at 2^64 - 1.
* In `World`: a control message is delivered whole; the client's handlers for `ParamExchange`, `CreateStreams` and `TestStart`
  are called when a message is there; there is one listener event per connection and one readable event per cookie;
  connections are accepted in order; cookies and first datagrams are not lost; each side starts from `Test::new`; the number of
  streams is from 1 to 255 (0 is covered by `Progress.NeverStuckIff`). A readable event on a stream is one read
  per step, and the client may conclude its test while it is sending whenever a limit is reached or the time is over, which
  includes every moment at which the code does. All that is drained is UTF-8. On UDP, data may be lost anywhere on its way, and keeps its order.
* A data packet in `World` carries its number as such; `Datagram.NumberSurvivesIff` says when the payload does.

## Model

| member | source | states |
|---|---|---|
| `Wire.StateCodes` | src/test.rs:134-160 | a byte reads as a state exactly when it is the byte written for that state |
| `Wire.CodesInOrder` | src/test.rs:134-160 | a state's byte is its place in the order of a test, and there are no other states |
| `Wire.DrainMessage` | src/net.rs:34-54 | the read loop returns, fails or panics as `Drain` does for the outcomes ahead and uses up exactly those |
| `Wire.DrainTakesEverything` | src/net.rs:34-54 | a drain of UTF-8 chunks returns every byte there, however cut and interrupted, and stops at the first would-block |
| `Wire.DrainGarblesIff` | src/net.rs:42-44 | a drain panics exactly when some chunk is not UTF-8 by itself |
| `Wire.DrainFails` | src/net.rs:38-51 | a closed connection and a read error make a drain fail, whatever was read before |
| `Wire.ReadsHoweverIff` | src/net.rs:34-54 | a message survives every way of cutting it into chunks if and only if it is plain ASCII |
| `Wire.DrainIsOneMessageIff` | src/net.rs:34-59 | a drain yields the oldest unread message if and only if it is the only one and each chunk is UTF-8 |
| `Rate.Digits` | src/params.rs:18-40 | the decimal printing of a number: digits only, not empty, with the number as positional value |
| `Rate.AccumulateIsNumeral` | src/params.rs:18-40 | left-to-right parsing accepts a digit string exactly if its positional value fits in 64 bits, and gives that value |
| `Rate.KmgWrapsIff` | src/params.rs:8-15 | the product with the unit is exact exactly when it fits in 64 bits |
| `Rate.SuffixedRate` | src/params.rs:18-40 | digits followed by a unit parse to the wrapped product, or panic when the digits do not fit |
| `Rate.PlainRate` | src/params.rs:18-40 | digits alone parse to their number, or panic when they do not fit |
| `Rate.RateRoundTrip` | src/params.rs:8-40 | parsing a printed number with any suffix gives the bits it denotes if and only if these fit in 64 bits |
| `Rate.NoRate` | src/params.rs:18-40 | the default and anything ending in another letter give no rate |
| `Rate.GarbagePanics` | src/params.rs:18-40 | anything but digits before a unit panics, except for one leading plus sign |
| `Rate.PlusIsIgnored` | src/params.rs:18-40 | a leading plus sign changes nothing |
| `Rate.EmptyPanics` | src/params.rs:18-40 | nothing at all, and a unit alone, panic |
| `Datagram.BigEndianRoundTrip` | src/client.rs:281-283 | reading big-endian bytes inverts writing them |
| `Datagram.TruncatedIsExactIff` | src/server.rs:335-336 | a cut-off number reads back as itself exactly when the bytes cut off are zero |
| `Datagram.NumberSurvivesIff` | src/client.rs:280-287 | a datagram carries its number exactly when it has eight bytes or the bytes cut off are zero |
| `Stats.CountConserves` | src/client.rs:298-306 | a successful write keeps the stream's totals equal to its intervals plus the open one |
| `Stats.PushConserves` | src/test.rs:318-392 | pushing an interval moves its counts into the log and loses none |
| `Stats.CloseConserves` | src/test.rs:668-676 | after `end` the open interval is empty and the records alone add up to the unchanged totals |
| `Stats.PushKeepsLog` | src/test.rs:318-392 | the log stays numbered, ordered in time without overlap, and free of records without a block |
| `Stats.PushKeepsRetrans` | src/test.rs:339-356 | interval retransmits add up to the last kernel total, and the difference does not wrap while the counter does not fall |
| `Stats.CloseCoversRetrans` | src/test.rs:684-707 | a stream's final retransmits are the kernel's total and at least what its intervals reported |
| `Loss.LostIsMissingIff` | src/test.rs:334-338 | an interval's `lost` is the number of missing datagrams exactly when those received differ and lie within the interval |
| `Loss.WrapsUnlessAllHit` | src/test.rs:334-336 | the 64-bit subtraction is the number of missing datagrams exactly when every block was one of the expected numbers |
| `Loss.PushKeepsWindows` | src/test.rs:334-338 | every record's `lost` is the subtraction over its own window of the received numbers |
| `Loss.ReceivedWindows` | src/server.rs:325-342 | the same over any sequence of receipts with interval boundaries anywhere |
| `Loss.PushKeepsTally` | src/test.rs:334-338 | with rising numbers the subtraction does not wrap, and lost plus received telescopes to the interval's mark |
| `Loss.ReceiveKeepsTally` | src/server.rs:327-342 | so does every turn of the receive loop on a higher number |
| `Loss.CloseSettlesTally` | src/test.rs:668-683 | after `end`, lost plus received is the highest number |
| `Loss.WindowIsExact` | src/test.rs:334-338 | with rising numbers each record counts the numbers missing from its window |
| `Loss.ReceiverLossIsExact` | src/test.rs:668-683 | for every rising sequence and every placement of boundaries, each record and the stream's total count the datagrams that never arrived |
| `Loss.PushTelescopes` | src/test.rs:334-338 | whatever the numbers, the wrapped differences add up to one difference modulo 2^64 |
| `Loss.WindowIsExactIff` | src/test.rs:334-338 | a record counts its missing numbers exactly when those in its window differ and lie between its marks |
| `Loss.ReceiverLossIff` | src/test.rs:668-683 | for every sequence of numbers and every placement of boundaries, the stream's total counts the datagrams that never arrived up to the highest seen if and only if the numbers differ and the highest is last, and each record likewise |
| `Loss.HighestMissingIff` | src/test.rs:678-683 | the one wrapped difference is the number missing up to the highest exactly then, with room below 2^64 |
| `Loss.HighestNeedsRoom` | src/test.rs:334-338 | without that room it can be right by accident: four datagrams |
| `Loss.SenderLossWraps` | src/test.rs:334-338 | through every run of writes, starts and ends, each interval of a UDP stream reports 2^64 less its blocks |
| `Session.PositionIsRemainder` | src/client.rs:254-324 | attempt k of a burst is on stream k modulo the number of streams |
| `Session.ReadAllIsReceiveAll` | src/server.rs:305-343 | a burst of reads is the stream's own history and touches no other stream |
| `Session.WriteAllIsAfterAll` | src/client.rs:254-324 | a burst of the send loop is a run of writes, one stream after another |
| `Session.ReadAllIsAfterAll` | src/server.rs:306-343 | a burst of the receive loop is a run of reads |
| `Session.SumOfResults` | src/test.rs:711-713 | the results' streams add up to the test's streams |
| `Session.WriteKeepsThreeLevels` | src/client.rs:255-323 | a turn of the send loop keeps test, stream and interval counters in agreement |
| `Session.ReadKeepsThreeLevels` | src/server.rs:325-342 | so does a turn of the receive loop |
| `Session.StartKeepsThreeLevels` | src/test.rs:662-667 | so does `start` |
| `Session.EndKeepsThreeLevels` | src/test.rs:668-710 | `end` changes no byte or block count and leaves every open interval empty |
| `Session.RunKeepsThreeLevels` | src/test.rs:318-392 | over every sequence of writes, reads, starts and ends the three levels agree after every event |
| `Session.RunKeepsLogs` | src/test.rs:318-392 | over every such run with monotone clock and kernel counters, all interval logs are well formed and their retransmits telescope |
| `Session.EndTotalsRetrans` | src/test.rs:684-707 | the test's retransmits are the sum of the streams' kernel totals, none below what its intervals reported |
| `Session.EndOfQuic` | src/test.rs:692-699 | `end` changes no counter of a QUIC test |
| `Timing.EndTimes` | src/test.rs:668-710 | after any run with a steady clock each stream's elapsed time runs from creation to its own end and covers its log, and the test's from its last start to its end |
| `Timing.IntervalsAdjoin` | src/test.rs:318-392 | from `start` on one interval begins where the one before ended |
| `Timing.ReceivedIntervals` | src/server.rs:325-342 | every interval that the receive loop closes is longer than a second, and the open one was last read within a second of its start |
| `Pacing.PacerActsIff` | src/client.rs:256-268 | the pacer can hold a stream back exactly for targets other than zero and the largest value |
| `Pacing.AllowedBound` | src/client.rs:256-268 | what an allowed write can bring the open interval to |
| `Pacing.CountKeepsPaced` | src/client.rs:298-306 | a write within an interval keeps the per-interval bound |
| `Pacing.PushKeepsPaced` | src/client.rs:313-317 | an interval of more than a second joins the closed ones under the summed bound |
| `Pacing.RunKeepsPaced` | src/client.rs:254-324 | every stream keeps the bound through any sequence of attempts |
| `Pacing.PacingBound` | src/client.rs:256-322 | from `start` until a block or byte limit is reached each stream stays within one more than the target rate plus one block per second begun |
| `Pacing.LimitUnpaces` | src/client.rs:313-317 | once a limit is reached, every write leaves the pacer open for the next |
| `Limits.AllowedIff` | src/client.rs:256-268 | the rate comparison lets a write through exactly up to a number of bytes that depends on the target and the interval's age |
| `Limits.RunFits` | src/client.rs:254-324 | a run within the time that reaches a limit shows that it was in reach: some intervals have room for it |
| `Limits.RunOnPace` | src/client.rs:254-351 | with no limit in reach every run keeps the bound, the last round included, in which the time is found to be over |
| `Limits.LimitIsReached` | src/client.rs:254-324 | a limit in reach is reached within the time by some run of the send loop |
| `Limits.FloodBreaksPace` | src/client.rs:256-324 | with such a limit, or a target that cannot act, some run within the test's time exceeds the bound |
| `Limits.PacingBoundIff` | src/client.rs:254-351 | every run keeps the bound if and only if the target can act and no limit is in reach of the time (or nothing can be written) |
| `Limits.ReachIsBounded` | src/client.rs:254-324 | what the bound itself does not let the streams send is out of reach |
| `Limits.ReachIsAtLeast` | src/client.rs:254-324 | what whole intervals of just over a second have room for is in reach |
| `Limits.FarOffHolds` | src/client.rs:254-351 | so a test whose limits are beyond what the bound lets its streams send keeps the bound |
| `Endpoints.ServerStepKeepsOk` | src/server.rs:101-226 | whatever the event, a server that has finalised stays in its last two states |
| `Endpoints.ServerFinalisesOnce` | src/server.rs:173-217 | for every sequence of events the server calls `end` at most once |
| `Endpoints.ClientStepKeepsOk` | src/client.rs:95-232 | whatever the event, a client that has finalised only waits for results or has returned |
| `Endpoints.ClientFinalisesOnce` | src/client.rs:184-223 | for every sequence of events the client calls `end` at most once and never enters `TestEnd` or `Wait` |
| `Endpoints.ClientPanicsIff` | src/client.rs:95-232 | over every sequence of events a client handler panics if and only if the client drains what is not UTF-8 |
| `Endpoints.ClientMovesForward` | src/client.rs:95-232 | the client's state never goes back, whatever it is sent |
| `Endpoints.SendsAreWriteAll` | src/client.rs:254-324 | a burst of the send loop is the run of its single `Send` events and writes nothing on the control connection |
| `Endpoints.SinglesAreReadAll` | src/server.rs:306-343 | a burst of reads is the run of stream events with one read each |
| `Endpoints.HandledUpToBreak` | src/server.rs:99-415 | the events of a poll that are handled end with the first that breaks off, or are all |
| `Endpoints.PollsAreRuns` | src/server.rs:87-417 | whatever the polls bring, the server ends where a run of single events takes it, or idles there, and writes the same |
| `Endpoints.PollsFinaliseOnce` | src/server.rs:87-417 | and finalises at most once |
| `ServerLaws.WholeBatch` | src/server.rs:99-415 | a batch without an event that breaks off is handled whole, by tokens and states |
| `ServerLaws.DroppedRest` | src/server.rs:218-225 | after the first event that breaks off, by token and state, the rest of the batch changes nothing |
| `ServerLaws.LateDataKeepsControl` | src/server.rs:404 | a stream event in `TestEnd` does not keep a control event behind it from finalising the test |
| `ServerLaws.ServerFinalisesIff` | src/server.rs:173-217 | over every sequence of events, a server in one of its last two states has finalised, with nothing in an open interval, if and only if it was not sent there by their byte |
| `ServerLaws.LostClient` | src/server.rs:102-217 | what a lost connection does in each state: return, finalise and return, or nothing |
| `ServerLaws.MalformedMessage` | src/server.rs:110-200 | anything but one byte ends a running test; unknown bytes and settings that do not parse panic |
| `ServerLaws.IdleReturns` | src/server.rs:88-97 | a poll without an event returns after the idle timeout, or panics without one, and touches nothing else |
| `ServerLaws.AnyControlEvent` | src/server.rs:201-217 | from `TestEnd` on three control events of any kind finalise, report once and return; before, an unreadable one does nothing |
| `ServerLaws.ListenerEvent` | src/server.rs:227-295 | which listener events are ignored, panic or accept, and when a stream is one too many |
| `ServerLaws.StreamEvent` | src/server.rs:296-413 | which stream events are ignored, panic, read the stream's data or fail on its cookie |
| `LockStep.ClientControlKeepsInv` | src/client.rs:95-223 | the client's control handlers keep the joint invariant |
| `LockStep.ClientTurnKeepsInv` | src/client.rs:110-183 | each turn of the connect and cookie loops keeps it, with the server running in between |
| `LockStep.ServerControlKeepsInv` | src/server.rs:101-226 | the server's control handlers keep it |
| `LockStep.ListenerEffect` | src/server.rs:227-295 | a listener event finds the server creating streams with one missing and adds exactly the oldest waiting connection |
| `LockStep.ServerListenerKeepsInv` | src/server.rs:419-519 | accepting a stream keeps the invariant |
| `LockStep.ServerStreamKeepsInv` | src/server.rs:296-403 | draining a cookie and reading data keep it |
| `LockStep.ReachableInv` | src/server.rs:87-416 | the invariant holds after every run of both sides |
| `LockStep.AlwaysInStep` | src/client.rs:102-206 | lock step: drained bytes are the client's own state, at most one message each way, the client at most one state ahead, loops only in step |
| `LockStep.HandlerNeedsMessageIff` | src/client.rs:102-146 | in any reachable state, these handlers keep lock step if and only if the event was readable |
| `LockStep.WritableOnlyBreaks` | src/client.rs:102-109 | the first two events of a client, both only writable, put two messages on the control connection at once |
| `LockStep.NoPanic` | src/server.rs:227-295 | no `unwrap`, index, unknown state byte or stream count makes either side panic |
| `LockStep.TablesSound` | src/server.rs:419-519 | tokens, streams and connections are numbered alike, within bounds and below the reserved tokens |
| `LockStep.ListenerHandedOver` | src/server.rs:456-519 | a UDP or QUIC listener is pending exactly while streams are being created, which is while some are missing |
| `LockStep.CookiesAndDataApart` | src/server.rs:297-403 | no data is there while cookies are drained and no cookie while data is counted |
| `LockStep.RunningMeetsNoMessage` | src/client.rs:184-231 | a running client never has a control message to read; unused states stay unused; sides return only from `End` |
| `LockStep.StatesOnlyGrow` | src/server.rs:101-226 | from any point of a run on, neither side's state ever goes back |
| `Delivery.SendKeepsPair` | src/client.rs:280-306 | a write of the next number keeps sent, received and under way in balance and in order |
| `Delivery.ReadKeepsPair` | src/server.rs:325-342 | a read moves its bytes from under way to received and keeps the loss account |
| `Delivery.LossKeepsPair` | src/server.rs:320-337 | losing a datagram anywhere keeps the account |
| `Delivery.CloseKeepsPair` | src/test.rs:668-683 | `end` settles the stream's loss against the highest number seen |
| `Outcome.ReachableFull` | src/server.rs:87-416 | protocol invariant, end-to-end accounts and transcripts hold after every run |
| `Outcome.BytesConserved` | src/client.rs:280-306 | at every moment received plus under way is what was sent (UDP: at most that), and after `end` received plus lost is at most the datagrams sent |
| `Outcome.TranscriptsDetermined` | src/server.rs:101-213 | everything written on the control connection follows from the two states, each message once |
| `Outcome.ResultsFrozen` | src/server.rs:201-213 | once the server has finalised, which it does once, nothing later in the run changes what it reports |
| `Outcome.ResultsAgree` | src/test.rs:568-582 | a client in `End` holds the server's final totals, equal to the sums over the peer streams and within what it sent, in total and per stream |
| `Outcome.ServerKeepsTime` | src/server.rs:396-401 | the server's start, elapsed time and streams' creation are the readings of the events that caused them |
| `Outcome.PeerTimes` | src/test.rs:568-582 | a client in `End` holds the time from the server's start to its end, and each stream's from its accepting to its own end |
| `Progress.MovesUnlessDone` | src/client.rs:90-358 | under the invariant an event can be handled exactly unless both sides have returned |
| `Progress.NoStreamsDeadlock` | src/client.rs:114-141 | with no streams to create both sides come to wait for each other |
| `Progress.NeverStuckIff` | src/server.rs:87-416 | no run gets stuck early if and only if at least one stream is asked for |
| `Progress.StepRanks` | src/server.rs:87-416 | every step lowers a measure over phases, streams, cookies, writes and packets under way |
| `Progress.RunsAreBounded` | src/client.rs:90-358 | a run with a given number of writes has at most a number of steps fixed in advance |
| `Progress.RunsEndDone` | src/client.rs:219-223 | a run that can go no further has both sides returned from `End` |
| `Recorder.PerfStream.constructor` | src/test.rs:304-317 | a new stream is the empty one |
| `Recorder.PerfStream.Tally` | src/client.rs:298-306 | the counters of one read or write |
| `Recorder.PerfStream.PushStat` | src/test.rs:318-392 | in-place `push_stat` is the push that the conservation, log and loss lemmas are about |
| `Recorder.PerfStream.Received` | src/server.rs:327-342 | one turn of the receive loop is `Receive` |
| `Recorder.Test.Transition` | src/test.rs:562-567 | only the state changes |
| `Recorder.Test.AddStream` | src/server.rs:468-469 | the new stream comes last and is no other stream |
| `Recorder.Test.Begin` | src/test.rs:662-667 | the loop of `start` restarts every stream's interval and nothing else |
| `Recorder.Test.FlushAll` | src/test.rs:669-677 | the first loop of `end` flushes each stream once |
| `Recorder.Test.SettleAll` | src/test.rs:678-707 | the second loop of `end` settles loss or retransmits of each stream |
| `Recorder.Test.Finish` | src/test.rs:668-710 | in-place `end` is the `end` that the conservation, loss and retransmit lemmas are about, and is counted |
| `Recorder.Test.FromSerde` | src/test.rs:568-582 | only the peer's figures change, to those of the message |
| `Recorder.Test.ReceiveBurst` | src/server.rs:305-343 | the receive loop changes one stream and the totals, read by read |
| `Server.ServerImpl.Control` | src/server.rs:101-226 | the control arm is the event function of the protocol: new state, message sent, drain and wake |
| `Server.ServerImpl.Parameters` | src/server.rs:110-168 | settings are taken over, the listener for their transport appears, `CreateStreams` is announced |
| `Server.ServerImpl.Told` | src/server.rs:173-200 | one byte is followed; anything else ends the test |
| `Server.ServerImpl.Report` | src/server.rs:206-213 | the report lists every stream's connection, elapsed time and counters, and the totals |
| `Server.ServerImpl.Listener` | src/server.rs:227-295 | a listener event is ignored, panics or accepts as in the event function |
| `Server.ServerImpl.Join` | src/server.rs:461-469 | the stream, its token and its peer are added at the end |
| `Server.ServerImpl.Accept` | src/server.rs:456-483 | the listener is taken and replaced while streams are missing; the last stream announces `TestStart` |
| `Server.ServerImpl.Stream` | src/server.rs:296-413 | reads in `TestRunning`, cookies in `TestStart`, nothing otherwise |
| `Server.ServerImpl.HandleEvent` | src/server.rs:99-415 | every event is dispatched by token to the event function |
| `Server.ServerImpl.HandleBatch` | src/server.rs:99-415 | exactly the events of the poll up to the first that breaks off are handled, with the messages that they write |
| `Server.ServerImpl.Run` | src/server.rs:87-417 | the event loop is the function of its polls, batch by batch, with its idle timeout and what it writes, and finalises at most once |
| `Client.RoundEnd` | src/client.rs:254-324 | after a round the outer loop stops exactly if a write was blocked or the time was found to be over |
| `Client.ClientImpl.Connect` | src/client.rs:110-142 | the connect loop is its turns in the protocol, one stream each, then `TestStart` |
| `Client.ClientImpl.SendCookies` | src/client.rs:143-183 | the cookie loop is its turns, one per stream, then `TestRunning` |
| `Client.ClientImpl.Running` | src/client.rs:184-206 | the first message starts the test, a later one finalises it and returns |
| `Client.ClientImpl.TakeResults` | src/client.rs:207-218 | a drained message is taken over if it decodes; either way `End` is entered and announced |
| `Client.ClientImpl.Unexpected` | src/client.rs:224-231 | a known first byte is followed, anything else panics |
| `Client.ClientImpl.Handshake` | src/client.rs:102-183 | a message is drained, if there is one, unseen; settings, connections or cookies follow |
| `Client.LoopThroughIsRun` | src/client.rs:110-183 | the connect and cookie loops are runs of their single turns |
| `Client.ControlIsRun` | src/client.rs:95-232 | a handled control event is a run of single events that writes the same messages |
| `Client.StopIsFirst` | src/client.rs:254-324 | a burst can leave off at one place only, the first at which it stops |
| `Client.BurstGoesOn` | src/client.rs:254-324 | a burst continues the runs that the bitrate bound is about, one stream after another |
| `Client.BurstEnds` | src/client.rs:254-351 | where it stops the run goes on with another burst, unless the client ends the test |
| `Client.EventsAreRuns` | src/client.rs:90-359 | whatever the polls bring, the client ends where a run of single events takes it and has written the same |
| `Client.BurstIsRun` | src/client.rs:254-351 | so are a burst and the end of the test after it |
| `Client.ClientImpl.Control` | src/client.rs:95-232 | a control event is one protocol event followed by all turns of the loop it enters |
| `Client.ClientImpl.AttemptOne` | src/client.rs:256-322 | one turn of the send loop: held back, blocked, or counted at all three levels and pushed when due |
| `Client.ClientImpl.SendBurst` | src/client.rs:247-324 | the nested loops make exactly the attempts up to the first point where the code stops, in turn over the streams |
| `Client.ClientImpl.ConcludeTest` | src/client.rs:347-350 | the test is finalised once and `TestEnd` announced |
| `Client.ClientImpl.Stream` | src/client.rs:233-353 | a stream event is a burst, concluded exactly if a limit is reached or the time last read is over |
| `Client.ClientImpl.HandleEvent` | src/client.rs:93-358 | one event of a poll: the new state, messages, drain and wake of the control handlers, or of one burst |
| `Client.ClientImpl.Run` | src/client.rs:90-359 | the event loop is the function of the events its polls bring, with what it writes, and finalises at most once |
| `ClientLaws.StreamEventIgnored` | src/client.rs:233-235 | a stream event that is not writable, or comes while the client is not sending, changes nothing and writes nothing |
| `ClientLaws.ControlEventIgnored` | src/client.rs:95-231 | which control events are ignored, and that any makes a client in `End` return |
| `ClientLaws.BurstCounts` | src/client.rs:298-306 | a burst adds one block, and its bytes, for each attempt that went through |
| `ClientLaws.WritableWrites` | src/client.rs:233-324 | a writable event whose first attempt goes through sends at least that |
| `ClientLaws.BurstShape` | src/client.rs:254-324 | no attempt follows a blocked one or the round in which the time was read to be over, and nothing else ends a burst |
| `ClientLaws.BurstEndsIff` | src/client.rs:325-351 | a burst announces the end exactly if a limit is reached in the counts or the last elapsed time read is more than the test's |
| `ClientLaws.EndsOnlyWhenOver` | src/client.rs:325-351 | over any polls the end is announced only after a limit or a reading more than the test's time after the start |
| `ClientLaws.ClientFinalises` | src/client.rs:184-223 | over every sequence of events a client past its test has finalised it, with nothing in an open interval |
| `ClientLaws.LostServer` | src/client.rs:102-218 | what a lost connection does in each state of the client |
| `ClientLaws.HeardWhileRunning` | src/client.rs:184-193 | a running client that hears anything finalises and returns |
| `ClientLaws.LostResults` | src/client.rs:207-212 | a client waiting for results from a lost server waits for ever |
| `ClientLaws.Handshake` | src/client.rs:95-206 | five events take a new client through the handshake: what it says, its streams and its start |
| `ClientLaws.PushedIff` | src/client.rs:313-317 | an attempt that goes through pushes exactly if a limit is reached with it or the interval is over a second old |
| `ClientLaws.NotSentIff` | src/client.rs:256-312 | when an attempt is held back or blocked, and that it then changes nothing |
| `ClientLaws.AnyResults` | src/client.rs:207-218 | results end the test whether or not they decode, and are taken over only if they do |
| `ClientLaws.UnusedStates` | src/client.rs:224-231 | in its two unused states the client would follow any state byte and panic on anything else |

## Left out

- The contents of TLS and QUIC: handshakes, certificates and the library calls behind a stream, which is an abstract channel here.
- Socket set-up, registration and options, including the maximum segment size.
- JSON: settings and results are messages that decode to what was encoded, and others do not decode.
- Congestion windows, histograms, tables and all printing.
- The process loop that builds a new `Test` for each run.
- In `World`, the events that a `break` in the server's event loop drops: every event is delivered there.
- Failing writes on the control connection, and `shutdown` of the streams at the end of a test.
- The choice of a default block length, and the panic when a TCP block length is above the buffer's.
- Command-line parsing apart from rates, and the printed warnings of `getrate_in_bits`.
- The first eight bytes of the receive buffer when a short datagram follows a longer one in the same burst: the buffer is taken to be zero.
- Rounding of the `f64` rate, and wrap-around of byte and block counters at 2^64.
- How far a test overshoots its block or byte limit: the send loop goes on until a write is blocked or the time is over.
- Liveness when an edge-triggered event is lost, a result message is fragmented, or no write ever succeeds again.
- `Client.ClientImpl.SendBurst`: a burst ends where its script of outcomes ends, because the code's loop need not end.
- `Progress.MovesUnlessDone`: a test can be concluded once its time is over, without waiting for a write to be blocked.
- `Progress.NeverStuckIff`: rests on the same step; the code also needs a blocked write, or an interval pushed after the time.
