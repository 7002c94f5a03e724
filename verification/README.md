# Geronimo: selective repeat over datagrams, verified

Geronimo sends a byte stream over UDP. The sender cuts what the application wrote into numbered segments,
keeps up to 128 of them in flight, resends each from its own timer, and slides past acknowledged ones; the
receiver holds segments that come early and puts contiguous ones into a bounded queue. Numbers are 16 bits wide
and wrap. There is no standard behind it: the code is the specification.

`dafny verify dfyconfig.toml` checks everything.

## How the model is built

| files | what |
|---|---|
| `Basics` | bytes, 16-bit numbers, constants |
| `SenderModel`, `ReceiverModel` | each window as a value, each operation as a function of it |
| `ByteQueue`, `RoundTrip`, `SendWindow`, `ReceiveWindow` | the program's objects: classes whose methods update fields in place, proved to compute those functions |
| `Protocol`, `ProtocolInvariant`, `ProtocolSteps`, `ProtocolTheorems`, `Progress` | both windows and the network as a state machine, its invariant, and what follows for every run |
| `Closing`, `LossyClose` | what a close guarantees, under which condition, and a run that loses data without it |
| `RunAssumptions` | which states go wrong when a step does not meet a run assumption |
| `Naturals` | the same windows and network over unbounded numbers; the 16-bit protocol refines them |
| `Congestion` | the congestion window and the round-trip filter over every run |
| `Atomic`, `RecvRuns` | one uninterrupted `RecvAck` or `Recv` is a run of the state machine's small steps, and every interrupted `Recv` keeps to its contract |
| `SegmentProtocol`, `SegmentInWindow` | one segment's goroutine, timers and callers, as a state machine of its own, and how the window's segment follows it |
| `SendLaws`, `QuickResendSelection` | what `send` does to bytes and numbers, and which segments an ack resends |
| `Codec`, `Salsa`, `SecureCodec` | the message formats and the salsa stream |

A step of `Protocol` is a piece of the program that nothing can interrupt. What runs under the sender's lock is
cut at every turn of `send`, and `Recv` at every chunk pushed, so pushes, reads and the unlocked `EventResend`
fall anywhere. The first transmission of a segment may fail: the segment stays registered, and `send` returns at
once. Packets and acks carry the unbounded index of their segment, and the state records the run (every
byte pushed and read, every segment made); these fields are history, no decision reads them. The wire is a set: a
packet is in it while a copy is in flight, delivery may leave it there (duplication), order is free, and a step of
its own drops it.

## Run assumptions

The code does not enforce these; they are predicates on steps, and the theorems say where they are used.

- *Lifetime*: a delivered packet is at most 65408 indices behind the receiver's tail; a delivered ack is not behind a
  newer segment that already has its number. `DataLifetimeIsExact` and `AckLifetimeIsExact` say which states a delivery
  spoils otherwise: within one cycle of numbers, an older packet always is held in place of another segment, and an
  older ack always marks another segment, wrongly exactly when that one was not received.
- *InFlight*: a flush (`readAny`, which does not look at the window) sends only while fewer than 128 segments are
  in flight. `FlushFreeRunIsValid`: without flushes this is a theorem. `FittingCloseIsGraceful`: for a close it is
  enough that, when the close signal is given, what is in flight and what the buffer will make fit in one window.
  `InFlightBoundIsExact`: a flush with a full window leads to an unsound ack exactly when the head of the window has
  not arrived. `CloseCanLoseData`: this happens, and then a close ends well on both sides with a byte lost.
- *QuietClose*: no `Write` is in progress once the close signal is given (close theorems only).
- *No abandonment*: in `Protocol` a segment ends only by its ack, not by its 10 second timer or an error of a later
  send. In `SegmentProtocol` it may end in any of these ways.

## What the proofs found

- The receiver's window test is right only because the sender's head never passes the receiver's tail. During a
  drain this hangs on one fact: the segment that started the drain has not been acknowledged yet
  (`DrainUnacked`).
- A close with a full window and bytes still in the buffer can lose data without either close timeout
  (`CloseCanLoseData`): the receiver acknowledges what it drops.
- When the first transmission of a segment fails, `send` has stopped the flush timer and returns: the rest of the
  buffer waits, with room in the window, until the failed segment is acknowledged after a resend
  (`FailedSendStrands`, `StrandedIsReachable`, `NoStrandedData`). When it fails in the closing flush, the flush is over.
- `pop` into an empty destination loses the whole queue; `Pop` says so. Its callers never pass one.
- With capacity to spare, `XORKeyStream` works in the destination and spoils bytes behind the result.
- A message survives printing and parsing exactly when its announced attribute count and lengths are the real
  ones; a length that wraps when 3 is added unwraps again. A payload of 65536 bytes or more breaks it, and so does a
  builder without attributes called on a message that has some; the FIN2 reply is built on a received message
  (net/conn.go:277).
- `UnMarshall` leaves the header and the attributes before a bad one set when it reports an error.
- The comment at win/swnd.go:48 sets 14 bytes aside for the protocol; the format uses 12.

## Model

| member | source | states |
|---|---|---|
| ProtocolTheorems.EndToEndSafety | win/rwnd.go:116-149 | in every reachable state the bytes read, then the receiver's queue, are a prefix of the bytes pushed, also in the middle of a segment |
| ProtocolTheorems.DeliveredIsPrefix | win/bq.go:100-172 | the invariant gives the prefix property |
| ProtocolTheorems.RefinesByteQueue | win/swnd.go:153-214 | windows and network together act as one FIFO byte queue: a push appends, a read takes from the front, every other step changes nothing |
| ProtocolSteps.StepKeeps | win/swnd.go:184-302 | every step of both ends and the network keeps the whole invariant |
| ProtocolSteps.RunKeeps | win/swnd.go:346-393 | so does every run that meets the assumptions |
| ProtocolSteps.DeliverDataKeeps | win/rwnd.go:77-96 | a delivered packet, new, old, early or duplicate, keeps it |
| ProtocolSteps.DeliverAckKeeps | win/swnd.go:185-214 | so does an ack, current, repeated or stale |
| ProtocolSteps.SegmentDoneKeeps | win/rwnd.go:143-148 | so does the slide past a drained segment |
| ProtocolSteps.SendFailsKeeps | win/swnd.go:352-361 | so does a first transmission that fails |
| ProtocolSteps.EnqueueShape | win/swnd.go:352-355 | a new segment takes a free number, overwrites nothing, and `sent` stays the circular interval from head to tail |
| ProtocolInvariant.HeadBehindTail | win/rwnd.go:116-149 | head <= receiver's tail <= sender's tail <= head + 128 while the receiver can still take segments |
| ProtocolInvariant.TrimKeeps | win/swnd.go:289-302 | trimming keeps the interval, drops acked segments only, and stops at an unacked head |
| ProtocolTheorems.WrapAroundIsUnobservable | win/rwnd.go:165-178 | the modular scan accepts a packet exactly when its unbounded index is at or beyond the receiver's tail |
| ProtocolTheorems.AckFindsItsSegment | win/swnd.go:191-194 | the lookup of an ack's number finds the acknowledged segment, or nothing when that is already trimmed |
| RunAssumptions.DataLifetimeIsExact | win/rwnd.go:165-178 | delivering an already delivered packet makes the receiver hold it for another segment exactly when its number lies in the window; within one cycle, exactly when the lifetime assumption is broken |
| RunAssumptions.AckLifetimeIsExact | win/swnd.go:191-201 | within one cycle, the ack of a trimmed segment finds a segment exactly when the lifetime assumption is broken, and then its mark is unsound exactly when that segment was not received |
| RunAssumptions.InFlightBoundIsExact | win/swnd.go:332-343 | a segment that a flush sends is acked on delivery without being kept exactly when it lies beyond the receiver's window, that is, when the flush breaks the in-flight assumption and the head of the window has not arrived |
| LossyClose.FullWindowIsReachable | win/swnd.go:443-450 | a closing flush in just that state is reachable |
| Naturals.WrapAroundRefinement | win/rwnd.go:131-178 | every 16-bit step is the corresponding step over unbounded numbers: what is held, marked and trimmed, whether a segment is sent, which are resent and which acks go out, all decided by indices |
| Naturals.RunsRefine | win/swnd.go:184-302 | every run is a run over unbounded numbers |
| Naturals.ReachableRefines | win/rwnd.go:116-178 | so every reachable state stands for one that is reached over unbounded numbers |
| Naturals.SendRefines | win/swnd.go:309-343 | a segment is sent exactly when bytes wait and, but for a flush, they fill a segment and the index difference is below the window |
| Naturals.QuickRefines | win/swnd.go:217-230 | an ack resends exactly the unacked segments in flight whose index is two or more below its own and whose timer fired |
| Naturals.TickerRefines | win/segment.go:245-260 | a ticker resend puts out the segment in flight whose index has that number |
| Naturals.AckRefines | win/swnd.go:289-302 | an ack marks its index and moves the head to the first unacked index, or is ignored below the head |
| Naturals.DataRefines | win/rwnd.go:77-96 | data is held exactly when its index is at or beyond the tail |
| ProtocolTheorems.AckSoundness | win/rwnd.go:116-177 | every ack in flight, every acked mark and every trimmed segment names data the receiver has |
| ProtocolTheorems.HeldIsSenderData | win/rwnd.go:120-128 | what the receiver holds ahead of its tail is the sender's segment of that index |
| ProtocolTheorems.SenderWindowStructure | win/swnd.go:233-257 | keys of `sent` are the interval [head, tail), at most 128, their number is the circular distance, 2 <= swnd = min(rwnd, cwnd) <= 128, the head is unacked |
| ProtocolTheorems.ReceiverWindowStructure | win/rwnd.go:116-149 | between calls of `Recv` on an open window everything held is 1 to 127 ahead of the tail |
| ProtocolTheorems.FlushFreeRunIsValid | win/swnd.go:309-328 | with `readMSS` alone never more than 128 segments are in flight |
| Closing.GracefulClose | win/swnd.go:428-476 | when both close waits end on their condition and no write runs, every byte pushed is at the receiver before FIN1 |
| Closing.FittingCloseIsGraceful | win/swnd.go:428-476 | the same without the in-flight assumption on the close, when at the close signal the segments in flight and those the buffer makes are at most 128 |
| LossyClose.CloseCanLoseData | win/swnd.go:443-450 | with 129, a run meets all other assumptions, ends both waits on their condition, and has lost a byte |
| Closing.QuietRunKeeps | net/conn.go:313-320 | the phases of a close keep what each wait established |
| Closing.ClosedReceiverIsDeaf | win/rwnd.go:82-88 | once closed between two calls, the receiver takes and acknowledges nothing more |
| ProtocolTheorems.NoStrandedData | win/swnd.go:309-328 | data left in the buffer with nobody sending implies an unacked head in flight, or the flush timer armed or fired; unless the last `send` failed, the window is full or the timer armed or fired |
| ProtocolTheorems.FailedSendStrands | win/swnd.go:346-364 | a failed first transmission leaves data with room in the window and no flush to come exactly under a condition on the state before |
| ProtocolTheorems.StrandedIsReachable | win/swnd.go:358-361 | such a state is reachable |
| ProtocolTheorems.NotStrandedKeeps | win/swnd.go:233-249 | every step keeps that only a failed transmission strands data, window shrinkage and timer stops included |
| Progress.PossibleProgress | win/swnd.go:185-214 | from every reachable open state with nothing beyond recovery a finite schedule without loss, failure, close or new write delivers and reads every byte pushed |
| Progress.PathIsRun | win/swnd.go:380-389 | such a schedule is a run of the protocol that meets the assumptions |
| Progress.FinishRecv | win/rwnd.go:123-148 | a drain in progress can always be finished, and its ack goes out |
| Progress.FinishSend | win/swnd.go:346-364 | a send in progress can always be finished; a flush ends with an empty buffer |
| Progress.Round | win/swnd.go:380-389 | as long as bytes wait or segments are in flight, some schedule leaves less of them |
| Progress.HeadTrimmed | win/swnd.go:200-206 | delivering the head's ack slides the window |
| SenderModel.Trim | win/swnd.go:289-302 | changes nothing but `sent` and the head, and leaves no acked head |
| SendWindow.SWND.TrimAckSeg | win/swnd.go:289-302 | the loop computes the trim |
| SendWindow.SWND.Read | win/swnd.go:309-343 | a segment is cut exactly when the reader may; it is the first 1442 bytes or what there is, timer stop and reset included, and the pop never times out |
| SendWindow.SWND.Launch | win/swnd.go:352-355 | the segment is registered under the tail number with the current timeout |
| SendWindow.SWND.Send | win/swnd.go:346-364 | the loop computes the final window and the segments transmitted, in order, also when the segment sender fails after any number of them |
| SendLaws.SendConservesBytes | win/swnd.go:346-364 | the bytes transmitted, those of the failed segment and those left in the buffer are, in this order, the bytes that were in it |
| SendLaws.SentUpToTail | win/swnd.go:352-355 | the tail moves by one for each segment transmitted |
| SendLaws.SendNumbersSegments | win/swnd.go:346-364 | consecutive numbers, full segments from `readMSS`, and an end only when nothing more may be sent or on an error |
| SendWindow.SWND.EventEnd | win/swnd.go:233-241 | cwnd becomes min(2*cwnd, 128), swnd min(rwnd, cwnd), the timeout the clamped minimum after the sample; nothing else changes |
| SendWindow.SWND.ComRTO | win/swnd.go:413-425 | the published timeout is the windowed minimum clamped to [1 ns, 500 ms] |
| SendWindow.SWND.EventResend | win/swnd.go:244-248 | cwnd becomes max(2, cwnd - 1), swnd min(rwnd, cwnd); nothing else changes |
| SendWindow.SWND.AckSegment | win/segment.go:133-155 | the first ack of a segment marks it, takes one sample and doubles the window; a second one changes nothing |
| Congestion.CongestionLaw | win/swnd.go:233-257 | over every run cwnd is 16 doubled up to 128 for each segment acked and less one, at least 2, for each resend, in order; the number of samples is the number of segments acked, and the timeout the clamped minimum of the current block of twelve |
| Congestion.DuplicateAckIsIgnored | win/segment.go:133-139 | the ack of an acked segment leaves the whole sender as it was |
| Congestion.Doubling | win/swnd.go:236-239 | after k ended segments in a row cwnd is min(128, cwnd * 2^k) |
| Congestion.Shrinking | win/swnd.go:245-247 | after k resends in a row cwnd is max(2, cwnd - k) |
| Congestion.EveryResendIsHeard | win/segment.go:258 | every ticker resend shrinks the window once, or its event is still to come |
| SendWindow.SWND.GetTryResendSeqs | win/swnd.go:493-513 | the scan terminates and returns the specified selection for all numbers |
| SendWindow.SWND.QuickResend | win/swnd.go:217-230 | sends just the segments in flight two or more before the acked one that are unacked and whose timer fired, each once, oldest first |
| QuickResendSelection.QuickOutIsExact | win/swnd.go:217-230 | the specified output is that |
| SendWindow.SWND.ReceiveAck | win/swnd.go:185-214 | the whole new window; what is sent is new segments up to the tail, then the quick resends; one sample exactly for the first ack of a segment in flight; after a failed transmission nothing is resent |
| SendWindow.SWND.constructor | win/swnd.go:261-287 | the initial window |
| QuickResendSelection.SelectionIsExact | win/swnd.go:493-513 | exactly the in-flight numbers at circular distance two or more before the acked one, oldest first; nothing when that is not in flight |
| QuickResendSelection.SelectionIsLive | win/swnd.go:217-230 | each of them is a key of `sent` |
| RoundTrip.FilterIsWindowedMinimum | win/swnd.go:142-150 | after k samples n = k mod 12 and the value is the minimum of samples 12*(k/12) to k, sample 0 being the default |
| RoundTrip.Filter.Com | win/swnd.go:142-150 | the method computes that filter, for every history of samples |
| Atomic.RecvAckIsRun | win/swnd.go:185-214 | an uninterrupted `RecvAck`, failing or not, is a run of the protocol with the method's result and packets |
| Atomic.RecvIsRun | win/rwnd.go:77-149 | an uninterrupted `Recv` for which the queue has room is a run of the protocol with the result the method's contract gives |
| RecvRuns.EveryRecvMeetsContract | win/rwnd.go:77-149 | conversely every `Recv` in a run, waiting for room or not, with anything between its steps, keeps to that contract and ends only in its two ways, its ack sent |
| ByteQueue.Queue.constructor | win/bq.go:29-39 | an empty queue, writable, not readable |
| ByteQueue.Queue.PushWoken | win/bq.go:107-137 | takes what fits, and keeps every channel ever installed closed or current, readable iff non-empty, writable iff not full |
| ByteQueue.Queue.Pop | win/bq.go:142-172 | takes from the front, keeps the channels right, loses the queue for an empty destination |
| ByteQueue.Queue.BlockPop | win/bq.go:56-64 | does not time out on a non-empty queue |
| ByteQueue.Queue.BlockPopWithSignal | win/bq.go:67-78 | any ready case may be taken; it waits exactly when none is |
| ByteQueue.Queue.Push | win/bq.go:101-139 | any ready case may be taken; it waits exactly when the queue is full and neither signal is there |
| ByteQueue.Queue.BlockPush | win/bq.go:83-98 | bytes go in in order whatever others do between turns, and leave only to those others: without pops the queue is the old one and what was pushed; it completes given as many pops as bytes |
| ByteQueue.Queue.NoOrphan | win/bq.go:101-172 | a channel still open is the current one and its condition really does not hold |
| ReceiveWindow.RWND.LegalSeqN | win/rwnd.go:165-172 | the scan decides membership in the 128 numbers from the tail |
| ReceiveWindow.RWND.Recved2AppBuffer | win/rwnd.go:131-149 | the tail segment goes into the queue and out of the map, or nothing slides |
| ReceiveWindow.RWND.Drain | win/rwnd.go:123-127 | the loop terminates and removes exactly the consecutive run from the tail |
| ReceiveWindow.RWND.Recv | win/rwnd.go:77-128 | every outcome: refused, acked and dropped, kept and drained, stopped by a close, still waiting on a full queue; with map, tail, ack, and the queue, which without readers is the old one and what was drained |
| ReceiveWindow.RunAt | win/rwnd.go:131-148 | what is drained is the payload of each number from the tail in turn |
| ReceiveWindow.RWND.Read | win/rwnd.go:48-74 | takes from the front of the queue; end of file only when the window is closed, before the call or while it waits |
| SegmentProtocol.EndsOnce | win/segment.go:285-301 | over every interleaving `acked` is closed at most once and EventEnd raised at most once, after the close |
| SegmentProtocol.AckReturnsAcked | win/segment.go:133-155 | `AckIi` returns only with `acked` closed |
| SegmentProtocol.NoDeadlock | win/segment.go:133-190 | with a call in progress some step of the caller or the goroutine is always enabled |
| SegmentProtocol.InternalRunsEnd | win/segment.go:193-231 | caller and goroutine cannot go on for ever without a timer or a new call |
| SegmentProtocol.CallReturns | win/segment.go:158-190 | every call can return within 16 steps |
| SegmentProtocol.TickerBudget | win/segment.go:234-260 | every firing of the ticker up to the eleventh resends, later ones do not; the timeout after j is min(500 ms, rto0 + 15j ms); each resend that succeeds raises one EventResend |
| SegmentProtocol.SendIsNext | win/segment.go:193-231 | after a firing with budget left, or a quick resend handed over, the goroutine's next step is a send, and nothing can prevent it |
| SegmentProtocol.QuickCallResends | win/segment.go:158-190 | `TryQResend` goes on to a resend exactly when the segment is unacked and its timer has fired, and returns only after it or when the segment ended |
| SegmentProtocol.QuickBudget | win/segment.go:158-172 | each quick resend uses up one firing of its timer, and no firing is lost while the segment is unacked |
| SegmentProtocol.EndsForCause | win/segment.go:193-231 | over every run the goroutine is at its end exactly when there was an ack, the ten second timer or a send error |
| SegmentProtocol.BudgetSpentInSixSeconds | win/segment.go:193-260 | on an ideal clock without quick resends each firing comes at the sum of the timeouts so far, the budget is spent within 6 s and the firing after that is past 10 s |
| SegmentProtocol.ClockIsTicker | win/segment.go:193-260 | the ideal clock's segment is that of the goroutine after as many firings |
| SegmentInWindow.TickerAgrees | win/segment.go:245-260 | a ticker resend of the window is a firing and a send of the goroutine, possible for the one exactly when for the other |
| SegmentInWindow.AckAgrees | win/segment.go:133-155 | an ack in the window is the rendezvous of `AckIi` with the goroutine, with one EventEnd for the first and none for another |
| SegmentInWindow.QuickAgrees | win/segment.go:158-190 | an undisturbed `TryQResend` sends exactly when it should and leaves the segment as it is |
| SegmentInWindow.LaunchAgrees | win/swnd.go:352-355 | a segment enters the window as its goroutine begins |
| Codec.UnMarshallAfterMarshall | rule/v1/message.go:91-170 | parsing the printed message restores it exactly when count and lengths are the real ones |
| Codec.MarshallAfterUnMarshall | rule/v1/message.go:131-170 | printing a parsed message gives back exactly the bytes consumed, wrapped lengths included |
| Codec.Message.Marshall | rule/v1/message.go:91-129 | prints header and attributes in order |
| Codec.HeaderLayout | rule/v1/message.go:91-112 | nine bytes, each number with its high byte first |
| Codec.AttrLayout | rule/v1/message.go:113-127 | type, length plus three in 16 bits with its high byte first, value |
| Codec.AttrsInOrder | rule/v1/message.go:113-127 | the attributes follow one another |
| Codec.PayloadLayout | rule/v1/message.go:196-205 | the bytes of a payload message |
| Codec.Message.UnMarshall | rule/v1/message.go:131-170 | accepts exactly the well-formed inputs, and what is set after an error |
| Codec.MapHoldsLast | rule/v1/message.go:148-167 | the attribute map has just the types that occur, each with its last value |
| Codec.Message.PAYLOAD | rule/v1/message.go:196-205 | builds one payload attribute, well-formed exactly below 65536 bytes |
| Codec.Message.NewMessage | rule/v1/message.go:211-219 | overwrites the header only, so the message is well-formed exactly when it had no attributes |
| SecureCodec.SecureRoundTrip | rule/v2/message.go:96-179 | the enciphered trip is faithful exactly when the plain one is, for every lawful cipher |
| SecureCodec.SalsaCipherIsLawful | cipher/cipher.go:232-257 | the framing around the salsa stream is such a cipher |
| SecureCodec.SalsaCipherWire | cipher/cipher.go:232-241 | the vector, then each byte of the text xor the keystream byte of its place |
| SecureCodec.SecureMessage.UnMarshall | rule/v2/message.go:136-179 | decrypt error, format error and success, each with its effect |
| SecureCodec.SecureMessage.Marshall | rule/v2/message.go:96-134 | the encryption of the printed message |
| SecureCodec.CarrySegment | net/conn.go:413-422 | number and payload of a segment arrive as sent |
| SecureCodec.SegmentFits | win/swnd.go:47-49 | a full segment with a 16 byte vector fits in a 1472 byte datagram |
| Salsa.ChunkIndependence | cipher/cipher.go:119-144 | however the input is cut, successive calls give what one call gives |
| Salsa.SalsaStream.XORChunks | cipher/cipher.go:119-144 | so do calls of the method itself, each with buffers of its own |
| Salsa.StreamUndoes | cipher/cipher.go:119-144 | two equal streams undo each other |
| Salsa.SalsaStream.XORKeyStream | cipher/cipher.go:119-144 | with any of the three buffers, bit by bit, byte i is src[i] xor byte (counter + i) % 64 of keystream block (counter + i) / 64, and the counter advances |
| Salsa.XorIsXor | cipher/cipher.go:140 | a bit of the result is set exactly when the two bits differ |

## Left out

- Sockets, dialling, listening, keepalive, addresses, logging: input and output around the windows.
- The connection's state machine: its meaning depends on a library that is not part of this model. Only the order
  "close the send window, then FIN1" is used.
- Read and write deadlines: the code computes them as now minus deadline; runs have none.
- `Closing.GracefulClose`: reaches up to the receiver's queue; after the peer closes, `Read` reports the end with bytes
  possibly still queued.
- `SWND.Close` returning nil as a sign of delivery: both close timeouts are silent, and are steps of their own here.
- Abandoned segments (10 second timer, error of a resend) in `Protocol`: they mark a segment acked that may not be
  delivered.
- Runs with flushes beyond 128 segments in flight, except for the one in `LossyClose`: see *InFlight*.
- The ten second panics of the rendezvous, data races and the memory model: steps are atomic.
- `SendWindow.SWND.Send`: segments are values in the map, not objects, so the aliasing of a segment between the
  window and its goroutine is only in `SegmentProtocol`.
- `SendWindow.SWND.ReceiveAck`: which quick-resend timers have fired, the measured round trip and how many
  transmissions succeed are parameters.
- `ReceiveWindow.RWND.Recv`: what other goroutines do between its turns is a parameter; `RecvRuns` has them as steps.
- `Salsa.SalsaStream.XORKeyStream`: the keystream block function is a parameter and the block counter does not
  wrap at 2^64; `src` is taken by value.
- Other ciphers, key derivation, random vectors and the buffer pool: the cipher is a parameter that obeys
  decrypt-after-encrypt.
- Builders other than `PAYLOAD`, getters, options and the listener's tables: they would only add easy members.
