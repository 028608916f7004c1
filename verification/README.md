# A verified model of the load-balancer simulator

The simulator runs TCP connections through a load balancer in virtual time: clients send
finite streams over lossy links, the balancer forwards them under one shared budget, backend
hosts spend CPU time on them, and a small service starts, stops and edits runs. This project
states what its protocol and queueing layers do, as Dafny functions, methods and state
machines, and proves their central properties over all inputs and all runs.

Each component has two parts. A specification says what a step does as a function on values;
run-level theorems are proved about it by induction over arbitrary step sequences. Beside it,
where the source updates fields in place, a class holds the same fields and loops, and every
method is proved to compute exactly the specified step. The classes that handle events
(`Sender`, `ReceiveConnection`, `Dispatcher`, `SharedLink`, `Pool` and `Session`) have a
`Valid()` that includes the invariant of their specification, one `Perform` that takes any
event and keeps it, and a `Play` that carries the run-level theorems over to the fields;
`TcpObjects.Pair` does so for both ends of a connection together.

The modules named `...Rules` say what single inputs and whole runs do in observable terms (what is
emitted, refused, delayed, counted, and when a link or core falls free), with both directions of
their conditions and without the transition functions they speak about.

| file | component |
|---|---|
| `Basics.dfy`, `Packets.dfy` | integer limits, segments, TCP states |
| `SendBuffer.dfy`, `Sender.dfy`, `SenderSafety.dfy`, `SenderSteps.dfy`, `SenderProgress.dfy`, `SenderStalls.dfy`, `SenderRules.dfy`, `SenderObject.dfy` | the sending end: pending segments, transitions, invariant, runs, what it emits and achieves, how it stalls, what each input does, and the object updated in place |
| `ReceiveBuffer.dfy`, `SackReport.dfy`, `Receiver.dfy`, `ReceiverSafety.dfy`, `ReceiverSteps.dfy`, `ReceiverReports.dfy`, `ReceiverProgress.dfy`, `ReceiverStalls.dfy`, `ReceiverRules.dfy`, `ReceiverObject.dfy` | the receiving end: reassembly, SACK report, transitions, invariant, what it emits, what a delivery achieves, how it stalls, what each packet does, and the object |
| `TcpSystem.dfy`, `TcpObjects.dfy` | both ends over a network that loses, repeats, delays and reorders; the same for the two objects |
| `TcpProgress.dfy`, `TcpDeadEnds.dfy` | when a transfer can still complete after everything on the way is lost, and when it cannot |
| `RtoEstimator.dfy` | RTT smoothing and backoff in 64-bit arithmetic |
| `IndexedHeap.dfy`, `Engine.dfy` | the event heap with back-indices and cancellation; runs and batches |
| `Serialization.dfy`, `Fifo.dfy` | exact link durations; the lazily compacted queue |
| `Egress.dfy`, `EgressSafety.dfy`, `EgressRules.dfy`, `EgressDispatcher.dfy` | outputs sharing one forwarding budget, each with a link of its own rate |
| `Ingress.dfy`, `IngressRules.dfy`, `IngressLink.dfy` | inputs sharing one link |
| `Host.dfy`, `HostRules.dfy`, `HostPool.dfy` | the finite multi-core FIFO server |
| `RunAdmission.dfy`, `RunRules.dfy`, `RunController.dfy` | the start and stop protocol between submitters and the owner |
| `Document.dfy`, `DocumentRules.dfy` | scenario documents with exact integers; which ones are accepted |
| `Redistribution.dfy`, `DurationText.dfy` | resizing client groups; exact decimal durations |

Conventions. Integers are mathematical and the source's limits are written out. Where an
operation panics, its precondition or the enabling condition of the step says so. Histories
(logs, admission lists, traces, integrals) exist only to state properties.

Places where a property needed its exact form:

- A ready head can see a free budget, but only in the very instant its wake-up is due; no
  virtual time passes there (`EgressSafety.NoReadyHeadWaitsOnFreeBudget`, and
  `ReadyHeadMeetsFreeBudget` for a run that gets there).
- "At most one reduction per flight" holds for every pair of reductions that are not
  timeouts, recovery entry by SACK included; a timeout may follow at once.
- A stop does not keep a run from beginning when the owner had already looked at the run's
  context for the second time (`RunAdmission.StopCanComeTooLate`). It does in every other case
  (`BeginsWhileStopping`, `NothingNewBegins`), and the one run that still begins applies no
  command and is cleared (`DoomedRunIsCleared`).
- A transfer does not recover from every loss: with the oldest byte lost as often as it may be
  sent, nothing completes it (`TcpDeadEnds.DeadEnd`). `RecoversExactlyWithTries` gives the exact
  condition; the lost packets there are gone for good, and only newly emitted ones arrive.
- Redistribution is monotone for strictly larger groups; equal groups may differ by one client,
  the earlier one being favoured (`Redistribution.LargerStaysLarger`, `EqualStayClose`).

## Model

| member | source | states |
|---|---|---|
| TcpSystem.Delivery | simulator/protocols/tcp/sender_receive.go:110-206 | for every run of sender, receiver and a network that loses, repeats and reorders: acknowledged payload <= received payload <= payload sent <= stream size, and recorded success means every byte of the stream was received and counted once |
| TcpSystem.GracefulMeansComplete | simulator/protocols/tcp/sender_closing.go:158-250 | TIME_WAIT or a graceful outcome on either side implies that each side consumed the other's FIN and the receiver holds exactly the whole stream |
| TcpSystem.FINOnlyAtTheEnd | simulator/protocols/tcp/receiver_closing.go:92-191 | a FIN is consumed only after it was sent, directly behind the last byte, with nothing buffered beyond it; an acknowledged FIN was consumed by the peer |
| TcpSystem.WindowSafety | simulator/protocols/tcp/sender_data.go:124-138 | the receiver's right edge never retreats, the sender's window end never passes it, and no emitted payload reaches beyond it |
| TcpSystem.EdgesGrow | simulator/protocols/tcp/receiver_buffer.go:20-24 | between any two moments of a run the receiver only moves forward: positions, edges, FIN flags and emitted packets |
| TcpSystem.EveryACKTruthful | simulator/protocols/tcp/receiver_sack.go:15-71 | every packet the receiver ever emitted in any run, SYN and RST apart, left in a step after which it said exactly what the receiver held: next position, window, and with SACK agreed min(4, ranges) distinct buffered ranges strictly above the ACK; if a data segment caused it, the buffered range that segment overlaps comes first |
| TcpSystem.StepEmitsTruth | simulator/protocols/tcp/receiver_ack.go:48-63 | one step of the composed system emits at most one packet from the receiver, and that packet is truthful of the state the step ends in |
| ReceiverReports.StepSays | simulator/protocols/tcp/receiver_connection.go:49-135 | whatever one input is, the receiver emits at most one packet, last of all; unless it opens or resets, its ACK, window and blocks are those of the new state |
| ReceiverReports.ArrivalLeads | simulator/protocols/tcp/receiver_sack.go:36-63 | the packet that answers a data segment begins with the first buffered range the segment overlaps |
| TcpObjects.Pair.Advance | simulator/protocols/tcp/receiver_connection.go:49-135 | in place: one step of both objects and the network equals one step of the composed system and keeps the joint invariant |
| TcpObjects.Pair.Play | simulator/protocols/tcp/sender_receive.go:110-206 | in place: after any run the counters the two objects keep satisfy acknowledged <= received <= stream size, and success or a graceful end on either side means everything was received |
| TcpSystem.RunInv | simulator/protocols/tcp/receiver_connection.go:49-135 | the joint invariant of both ends holds after every sequence of steps |
| TcpDeadEnds.RecoversExactlyWithTries | simulator/protocols/tcp/sender_retransmission.go:102-177 | in every reachable state with a source, if everything emitted so far is lost, some continuation still records success if and only if it is recorded already, or neither end has given up and the tries it needs are left: SYN tries before the handshake; afterwards FIN tries while the sender misses the receiver's FIN, and, with bytes pending, tries for the oldest byte or a receiver that has it and can be made to say so. The same holds if the network delivers the rest in order and each packet at most once |
| TcpDeadEnds.DeadEnd | simulator/protocols/tcp/sender_retransmission.go:161-168 | a run in which one byte is lost with all thirty repeats: neither end has given up, no continuation without a lost packet completes, and the next timeout ends the sender |
| TcpDeadEnds.StuckStays | simulator/protocols/tcp/receiver_closing.go:193-247 | each of six ways to be stuck (sender given up, receiver released, SYN or FIN or oldest byte not to be repeated, nothing left to say) is kept by every step that brings no lost packet back |
| TcpProgress.CanComplete | simulator/protocols/tcp/sender_retransmission.go:102-177 | while the tries are left, timers, fresh packets and their deliveries in order and at most once complete the transfer, whatever was lost before |
| TcpProgress.RunKept | simulator/protocols/tcp/receiver_connection.go:49-135 | in every reachable state each payload position handed out, an unanswered SYN and a started FIN have been emitted at least once, every offer has room, and a drained stream is recorded as finished |
| SenderStalls.StepWithholds | simulator/protocols/tcp/sender_retransmission.go:161-177 | a sender whose oldest bytes have no try left, given any input but an ACK of them, confirms nothing and emits no packet with the oldest byte |
| ReceiverStalls.NextStays | simulator/protocols/tcp/receiver_connection.go:49-135 | a packet without the next expected byte and without a FIN leaves the next expected position where it is |
| ReceiverStalls.ArrivalMutters | simulator/protocols/tcp/receiver_closing.go:92-166 | a receiver without FIN tries, whatever arrives, emits no FIN and no SYN and only packets behind its FIN's position, until it consumes the peer's FIN |
| ReceiverStalls.NoDelayStep | simulator/protocols/tcp/receiver_ack.go:21-45 | any input keeps this: once our FIN is sent no acknowledgement is delayed |
| SenderProgress.TidyStep | simulator/protocols/tcp/sender_data.go:25-47 | any input but a FIN beyond the peer's own keeps this: once every byte is confirmed the transfer is recorded as successful |
| SenderProgress.DataStep | simulator/protocols/tcp/sender_data.go:61-111 | any input keeps this: every payload position handed out was emitted in a data packet that covers it |
| SenderProgress.ACKEffect | simulator/protocols/tcp/sender_receive.go:160-206 | an ACK of new bytes at the expected position, or on a repeat of a consumed FIN, without loss evidence, confirms exactly those bytes, clears the tries and leaves the sender alive |
| SenderProgress.FINEffect | simulator/protocols/tcp/sender_closing.go:194-234 | the peer's FIN at the expected position is consumed, and what it acknowledges is confirmed with it |
| ReceiverProgress.DataEffect | simulator/protocols/tcp/receiver_connection.go:100-134 | payload at the next expected position is taken, also when it completes the handshake, and acknowledged at once or after the delay; payload below it is acknowledged at once |
| ReceiverProgress.FINStep | simulator/protocols/tcp/receiver_closing.go:193-221 | whatever input starts our FIN also emits it |
| SenderSteps.RunAccounting | simulator/protocols/tcp/sender_data.go:86-99 | for every input sequence: confirmed + remaining = stream size, remaining = unsent + in flight, and pending segments tile the unconfirmed positions without a gap |
| SenderSteps.RunObeysKarn | simulator/protocols/tcp/sender_retransmission.go:48-87 | every RTT sample times an original transmission whose bytes were sent once, and nothing was retransmitted between it and the sampling ACK |
| SenderSteps.RunReducesOncePerFlight | simulator/protocols/tcp/loss_detection.go:20-60 | for any two non-timeout reductions, loss or ECN, what was outstanding at the first is acknowledged by the ACK of the second, and boundaries never move back |
| SenderSteps.RunStateAgrees | simulator/protocols/tcp/sender_closing.go:72-191 | the TCP state is always the one the FIN flags determine; FIN is sent only with every payload byte acknowledged; graceful means both FINs |
| SenderSteps.SendWithinWindow | simulator/protocols/tcp/congestion_adapter.go:82-97 | outside SACK recovery a new send leaves the flight within the congestion window offered at that step, and within the peer's window |
| SenderSteps.StepCorrect | simulator/protocols/tcp/sender_receive.go:8-66 | one arbitrary input keeps the sender invariant, emits only well-formed packets within sent positions, and learns no more than the packet says |
| SenderSteps.RunInv | simulator/protocols/tcp/sender.go:134-234 | the sender invariant holds after every input sequence, whatever packets arrive |
| SenderSteps.NeverStuck | simulator/protocols/tcp/sender_retransmission.go:102-177 | in every reachable state unconfirmed payload, a SYN once sent, a FIN once sent and both last waits have an armed timer while they are unanswered; its firing repeats exactly the oldest bytes, the SYN or the FIN and arms itself again, or ends the connection at the limit |
| SenderSteps.SilenceEnds | simulator/protocols/tcp/sender_retransmission.go:161-177 | with bytes unconfirmed and nothing arriving, n timeouts terminate the sender if and only if n exceeds the retries left |
| SenderSteps.TerminatedIsSilent | simulator/protocols/tcp/sender.go:195-234 | a terminated sender never changes again, whatever it is given: nothing is emitted, sampled, confirmed or restarted, and no timer is left |
| SenderSafety.ReleaseKeeps | simulator/protocols/tcp/congestion_adapter.go:102-111 | a cumulative ACK keeps tiling, byte accounting and the guards of every earlier reduction |
| SenderSafety.DuplicateKeeps | simulator/protocols/tcp/loss_detection.go:20-60 | duplicate ACKs, with or without a fast retransmission, keep the whole sender invariant |
| SenderSafety.ECNKeeps | simulator/protocols/tcp/ecn_sender.go:48-81 | an ECN echo reduces at most once per flight |
| SenderSafety.TimeoutKeeps | simulator/protocols/tcp/congestion_adapter.go:130-161 | the loss guards set by a retransmission timeout still cover every earlier reduction |
| SenderSafety.QueueKeeps | simulator/protocols/tcp/sender_data.go:25-47 | finishing a drained stream and reserving the FIN position keep the invariant |
| SendBuffer.AcknowledgedTiles | simulator/protocols/tcp/send_buffer.go:29-65 | trimming by a cumulative ACK leaves exactly the bytes from the ACK on, gap-free |
| SendBuffer.AppendTiles | simulator/protocols/tcp/send_buffer.go:23-25 | appending the next segment extends the tiling by exactly its bytes |
| SendBuffer.Buffer.Acknowledge | simulator/protocols/tcp/send_buffer.go:29-65 | in place: releases, trims and lazily compacts; the pending segments are the functional result and the consumed prefix stays shorter than they are |
| SendBuffer.Buffer.Append | simulator/protocols/tcp/send_buffer.go:23-25 | in place: the pending segments gain one at the end |
| SendBuffer.Buffer.Reset | simulator/protocols/tcp/send_buffer.go:68-71 | in place: nothing stays pending |
| SenderObject.Sender.Perform | simulator/protocols/tcp/sender_receive.go:8-66 | in place: any input keeps the sender invariant of the fields, and emits and learns only what its packet allows |
| SenderObject.Sender.Play | simulator/protocols/tcp/sender_data.go:86-99 | in place: after any input sequence the counters add up to the stream, the pending buffer tiles the unconfirmed positions, and a graceful end had everything confirmed |
| SenderObject.Sender.Shutdown | simulator/protocols/tcp/sender.go:195-227 | in place, equal to the pure transition: ends the connection once: timers, pending segments, recovery and probe are dropped, unfinished transfers fail |
| SenderObject.Sender.SynTimeout | simulator/protocols/tcp/sender_retransmission.go:102-118 | in place, equal to the pure transition: retries the SYN up to the limit, then gives up |
| SenderObject.Sender.HandleSynAck | simulator/protocols/tcp/sender_receive.go:70-106 | in place, equal to the pure transition: opens the connection at the first acceptable SYN-ACK; a repeated one is only acknowledged again |
| SenderObject.Sender.QueueSegment | simulator/protocols/tcp/sender_data.go:25-47 | in place, equal to the pure transition: a drained stream finishes and closes; otherwise new data may be sent later |
| SenderObject.Sender.NextPayloadSize | simulator/protocols/tcp/sender_data.go:124-138 | in place, equal to the pure transition: the payload that fits the source, one segment, the peer's window and the congestion window |
| SenderObject.Sender.SendNew | simulator/protocols/tcp/sender_data.go:61-111 | in place, equal to the pure transition: one fresh segment is taken, timed, marked and emitted |
| SenderObject.Sender.PrepareDataRetry | simulator/protocols/tcp/sender_retransmission.go:161-177 | in place, equal to the pure transition: repeats the oldest pending fragment with the acknowledgement it was first sent with, or gives up after the limit |
| SenderObject.Sender.RetransmitData | simulator/protocols/tcp/sender_retransmission.go:129-143 | in place, equal to the pure transition: a timeout repeats the oldest bytes and resets the loss guards |
| SenderObject.Sender.FastRetransmitOldest | simulator/protocols/tcp/sender_retransmission.go:147-157 | in place, equal to the pure transition: repeats the oldest bytes without the timeout's consequences |
| SenderObject.Sender.DuplicateACK | simulator/protocols/tcp/loss_detection.go:20-60 | in place, equal to the pure transition: the third duplicate of an unprotected flight asks for one retransmission and at most one reduction |
| SenderObject.Sender.RepairHole | simulator/protocols/tcp/sack_recovery.go:165-190 | in place, equal to the pure transition: repeats missing bytes only inside the outstanding range and only in recovery |
| SenderObject.Sender.ObserveSACK | simulator/protocols/tcp/sack_recovery.go:61-113 | in place, equal to the pure transition: enters recovery once per flight on enough SACK evidence |
| SenderObject.Sender.ObserveECN | simulator/protocols/tcp/ecn_sender.go:48-81 | in place, equal to the pure transition: answers an echo that confirms new positions once per flight |
| SenderObject.Sender.AcknowledgeData | simulator/protocols/tcp/sender_receive.go:160-206 | in place, equal to the pure transition: moves positions, stream counters and guards together, then repairs and continues |
| SenderObject.Sender.HandleDataACK | simulator/protocols/tcp/sender_receive.go:110-159 | in place, equal to the pure transition: old, repeated and advancing ACKs take their three branches |
| SenderObject.Sender.StartFIN | simulator/protocols/tcp/sender_closing.go:72-116 | in place, equal to the pure transition: reserves one position for FIN once all accepted payload is acknowledged |
| SenderObject.Sender.RetryFIN | simulator/protocols/tcp/sender_closing.go:131-155 | in place, equal to the pure transition: repeats FIN up to the limit, then ends |
| SenderObject.Sender.AcknowledgeFIN | simulator/protocols/tcp/sender_closing.go:158-191 | in place, equal to the pure transition: confirms our FIN once and moves to the state the peer's FIN determines |
| SenderObject.Sender.HandleFIN | simulator/protocols/tcp/sender_closing.go:194-234 | in place, equal to the pure transition: consumes the peer's FIN once, at the next expected position |
| SenderObject.Sender.HandleReset | simulator/protocols/tcp/sender_closing.go:263-281 | in place, equal to the pure transition: only a reset at the exact position ends the connection |
| SenderObject.Sender.Close | simulator/protocols/tcp/sender.go:176-188 | in place, equal to the pure transition: closes after the handshake, shuts down before it |
| SenderObject.Sender.HandlePacket | simulator/protocols/tcp/sender_receive.go:8-36 | in place, equal to the pure transition: rejects invalid packets and dispatches resets, SYN-ACKs and ACKs |
| SenderObject.Sender.HandleACK | simulator/protocols/tcp/sender_receive.go:37-66 | in place, equal to the pure transition: ECN, acknowledgement, FIN and follow-up happen in this order |
| SenderRules.DuplicateRule | simulator/protocols/tcp/loss_detection.go:20-60 | without SACK a repeated ACK that is not the third in a row of an unguarded, unsuppressed flight adds nothing to the wire or the log; that one emits exactly the oldest segment, logs it as sent again, cuts the window unless an echo did, and guards the flight; out of tries it ends the connection |
| SenderRules.OnlyThirdRetransmits | simulator/protocols/tcp/loss_detection.go:20-60 | over any number of repeats in a row from an unguarded flight: the first two and every one after the third add nothing, the third repeats the oldest segment and cuts the window, once |
| SenderRules.RecoveryRule | simulator/protocols/tcp/sack_recovery.go:61-113 | with SACK a repeated ACK starts a recovery exactly outside one, on the third new information or a shown loss, beyond the last recovery; it then covers the whole flight, cuts the window and repairs the given hole, and otherwise emits nothing |
| SenderRules.WindowRule | simulator/protocols/tcp/sender_receive.go:110-159 | an ACK of nothing new only offers its window, or a cut for an echo of this flight; an older one is ignored |
| SenderRules.AdvanceRule | simulator/protocols/tcp/sender_receive.go:160-206 | an ACK of new bytes without loss evidence releases exactly those, ends each guard it reaches, samples a covered probe, clears repeats and tries, and completes the stream with its last byte |
| SenderRules.PartialRule | simulator/protocols/tcp/sender_receive.go:160-206 | a partial ACK that asks for it repeats the first segment behind it, as one more try |
| SenderRules.SendRule | simulator/protocols/tcp/sender_data.go:61-138 | a send takes exactly the least of source, segment, peer window and congestion window, in recovery a full segment or nothing, as one packet that carries CWR once after a cut |
| SenderRules.TimeoutRule | simulator/protocols/tcp/sender_retransmission.go:129-177 | a data timeout repeats the oldest segment with its first acknowledgement, forgets the repeats, ends a recovery, guards the whole flight, withdraws the probe, and after 30 tries ends the connection |
| SenderRules.RepairRule | simulator/protocols/tcp/sack_recovery.go:165-190 | a repair repeats exactly the hole, in recovery and inside the flight, and counts as a try only for the oldest byte |
| SenderRules.OpeningRule | simulator/protocols/tcp/sender_retransmission.go:90-118 | the SYN offers what is configured and only its first sending is timed; its timer repeats it 30 times, then gives up |
| SenderRules.SynAckRule | simulator/protocols/tcp/sender_receive.go:70-106 | the first plain SYN-ACK of our SYN opens with what both ends offer and is acknowledged; from the same position it is only acknowledged again, any other SYN changes nothing |
| SenderRules.ResetRule | simulator/protocols/tcp/sender_closing.go:263-281 | a reset ends the connection if and only if it is plain and at the expected position, before the handshake of our SYN; it answers nothing |
| SenderRules.FINConfirmRule | simulator/protocols/tcp/sender_closing.go:158-191 | a pure ACK confirms our FIN if and only if it is of the position behind it, and the peer's FIN decides whether that leads to FIN_WAIT_2, TIME_WAIT or the end |
| SenderRules.PeerFINRule | simulator/protocols/tcp/sender_closing.go:194-234 | the peer's FIN after ours leads to CLOSING, or to TIME_WAIT once ours is confirmed |
| SenderRules.RepeatedFINRule | simulator/protocols/tcp/sender_closing.go:194-234 | a repeat of the peer's FIN is answered with exactly one ACK, whatever is still unconfirmed, unless it confirms our FIN as the last thing and ends the connection |
| SenderRules.IgnoredRule | simulator/protocols/tcp/sender_receive.go:8-66 | malformed packets and packets outside what was exchanged change nothing at all |
| SenderRules.FINRule | simulator/protocols/tcp/sender_closing.go:118-128 | our FIN leaves at its reserved position and its timer runs |
| SenderRules.TimerOutcomes | simulator/protocols/tcp/sender_closing.go:131-155 | TIME_WAIT ends gracefully, FIN_WAIT_2 gives the peer up, and the FIN gives up at its limit |
| SenderRules.CloseRule | simulator/protocols/tcp/sender.go:176-188 | closing before the handshake aborts; afterwards it reserves the FIN as soon as everything is confirmed |
| SenderRules.RunCloses | simulator/protocols/tcp/sender_data.go:25-47 | in every reachable state a live sender whose stream is complete has its FIN right behind the last byte |
| SenderRules.SourceRule | simulator/protocols/tcp/sender_data.go:7-22 | one stream is accepted, before closing; a second changes nothing |
| Packets.WellFormed | simulator/model/packet.go:29-50 | the option check and the sequence end fail for exactly the packets with misplaced, too many or empty SACK blocks, or an end beyond 64 bits |
| ReceiveBuffer.AcceptRefinesSet | simulator/protocols/tcp/receiver_buffer.go:34-80 | one arrival adds exactly [start, end) within the window to the set of received positions, and returns exactly how many were new |
| ReceiveBuffer.AcceptKeepsValid | simulator/protocols/tcp/receiver_buffer.go:34-80 | ranges stay sorted, disjoint, non-adjacent and inside the window, neither edge moves back, and the count returned is the change of positions held |
| ReceiveBuffer.AcceptBound | simulator/protocols/tcp/receiver_buffer.go:34-80 | an arrival that ends by a limit leaves the next position and every buffered range within that limit |
| ReceiveBuffer.NextIsLeastMissing | simulator/protocols/tcp/receiver_buffer.go:34-80 | the next expected position is the least one never received |
| ReceiveBuffer.MergeCorrect | simulator/protocols/tcp/receiver_buffer.go:47-65 | merging a span into separated ranges is set union and keeps them separated |
| ReceiveBuffer.TotalBytesCounts | simulator/protocols/tcp/receiver_buffer.go:34-80 | the byte total is the number of buffered positions |
| ReceiveBuffer.Buffer.Accept | simulator/protocols/tcp/receiver_buffer.go:34-80 | in place: the loop over touched ranges computes the functional arrival and its count |
| ReceiveBuffer.Buffer.FindTouched | simulator/protocols/tcp/receiver_buffer.go:42-65 | finds exactly the ranges that overlap or touch the span, their hull and the bytes they lack |
| ReceiveBuffer.Buffer.ReplaceRanges | simulator/protocols/tcp/receiver_buffer.go:85-105 | in place: a block of ranges becomes nothing or one range, the others keep their order |
| ReceiverSafety.StepKeeps | simulator/protocols/tcp/receiver_connection.go:49-135 | one arbitrary input keeps the receiver invariant (stream count, closing agreement, report, connection counts, honest packets), and no edge moves back |
| ReceiverSafety.HandleFINKeeps | simulator/protocols/tcp/receiver_closing.go:92-139 | handling any FIN keeps the receiver invariant and moves nothing back |
| ReceiverSafety.HandleFINEffect | simulator/protocols/tcp/receiver_closing.go:92-139 | a FIN is consumed if and only if it is new, fits and lies at the next position; a fitting one behind a gap is remembered, any other changes neither position nor memory, and one consumed before is never consumed again |
| ReceiverSafety.ConsumeKeeps | simulator/protocols/tcp/receiver_closing.go:142-166 | consuming the FIN keeps the receiver invariant and moves nothing back |
| ReceiverSafety.ConsumeEffect | simulator/protocols/tcp/receiver_closing.go:142-166 | consuming the FIN moves exactly one position, leaves nothing buffered, reaches the state that our own FIN determines, and emits one packet acknowledging it |
| ReceiverSafety.TakeDataKeeps | simulator/protocols/tcp/receiver_connection.go:112-118 | payload is counted once, stops before a pending FIN, and the SACK report stays exact |
| ReceiverSafety.CloseKeeps | simulator/protocols/tcp/receiver_closing.go:47-53 | closing our direction, and the FIN it emits, keep the receiver invariant and move nothing back |
| ReceiverSafety.EmitFINKeeps | simulator/protocols/tcp/receiver_closing.go:210-221 | a FIN of ours is an honest packet: current ACK, window and blocks, at the one position reserved for it |
| ReceiverSafety.RunAccounting | simulator/protocols/tcp/receiver_connection.go:112-118 | for every input sequence the received count is the number of payload positions held, graceful means both FINs, and active plus half-open is one exactly while the connection is open |
| ReceiverSafety.NeverStuck | simulator/protocols/tcp/receiver_closing.go:193-257 | in every reachable state waiting data, an unconfirmed FIN and both last waits have an armed timer; its firing acknowledges everything received, repeats the FIN and arms itself again, or releases the connection |
| ReceiverSteps.HandlePacketGood | simulator/protocols/tcp/receiver_connection.go:49-135 | a packet from within the peer's stream leaves the receiver within that stream, and a FIN is confirmed only if the packet confirms it |
| ReceiverObject.ReceiveConnection.Perform | simulator/protocols/tcp/receiver_connection.go:49-135 | in place: any input keeps the receiver invariant of the fields and moves no position, edge or flag back |
| ReceiverObject.ReceiveConnection.Play | simulator/protocols/tcp/receiver_connection.go:112-118 | in place: after any input sequence every payload position held is counted once, graceful means both FINs, and one flow holds at most one slot |
| ReceiverObject.ReceiveConnection.Acknowledge | simulator/protocols/tcp/receiver_ack.go:48-63 | in place, equal to the pure transition: one ACK with the current window and SACK blocks clears the delay |
| ReceiverObject.ReceiveConnection.AcknowledgeData | simulator/protocols/tcp/receiver_ack.go:21-45 | in place, equal to the pure transition: only in-order data on an established connection may wait, and only up to the segment limit |
| ReceiverObject.ReceiveConnection.HandleSYN | simulator/protocols/tcp/receiver_connection.go:143-189 | in place, equal to the pure transition: reserves a slot at the first SYN; a repeated one keeps its positions |
| ReceiverObject.ReceiveConnection.AbortConnection | simulator/protocols/tcp/receiver_closing.go:56-73 | in place, equal to the pure transition: releases, then emits one reset |
| ReceiverObject.ReceiveConnection.AcknowledgeFIN | simulator/protocols/tcp/receiver_closing.go:170-191 | in place, equal to the pure transition: confirms our FIN once; the last ACK ends gracefully |
| ReceiverObject.ReceiveConnection.ConsumeFIN | simulator/protocols/tcp/receiver_closing.go:142-166 | in place, equal to the pure transition: takes the FIN's position and answers as the state demands |
| ReceiverObject.ReceiveConnection.HandleFIN | simulator/protocols/tcp/receiver_closing.go:92-139 | in place, equal to the pure transition: repeated, unacceptable, early and due FINs take their branches |
| ReceiverObject.ReceiveConnection.FINFits | simulator/protocols/tcp/receiver_closing.go:112-123 | in place, equal to the pure transition: the loop accepts exactly FIN positions inside the window behind all buffered ranges |
| ReceiverObject.ReceiveConnection.FinTimeout | simulator/protocols/tcp/receiver_closing.go:224-247 | in place, equal to the pure transition: repeats FIN up to the limit, then releases |
| ReceiverObject.ReceiveConnection.TakeData | simulator/protocols/tcp/receiver_connection.go:112-118 | in place, equal to the pure transition: buffer, SACK report and byte count change together |
| ReceiverObject.ReceiveConnection.HandleData | simulator/protocols/tcp/receiver_connection.go:100-134 | in place, equal to the pure transition: data inside the window acknowledges our FIN and echoes ECN; a filled gap consumes the pending FIN |
| ReceiverObject.ReceiveConnection.HandlePacket | simulator/protocols/tcp/receiver_connection.go:49-86 | in place, equal to the pure transition: rejects invalid packets and dispatches; data may complete the handshake |
| ReceiverObject.ReceiveConnection.HandleSegment | simulator/protocols/tcp/receiver_connection.go:87-98 | in place, equal to the pure transition: pure ACKs count only at the expected position, and nothing follows the peer's FIN |
| ReceiverRules.DelayRule | simulator/protocols/tcp/receiver_connection.go:100-134 | the ACK of data waits if and only if the data is wholly new, in sequence, with nothing buffered, the window unchanged and no new congestion mark, on an established connection without a pending FIN, and fewer than the configured segments wait; everything else is answered with one packet at once |
| ReceiverRules.EchoRule | simulator/protocols/tcp/receiver_connection.go:105-111 | data inside the window echoes a mark until CWR stops it, and data outside changes nothing of the echo |
| ReceiverRules.SYNRule | simulator/protocols/tcp/receiver_connection.go:143-189 | the first SYN takes a slot if the host has one, agrees on SACK and ECN from both offers, and is answered at its position; repeated it is answered again until our FIN, and any other SYN is not |
| ReceiverRules.EstablishRule | simulator/protocols/tcp/receiver_connection.go:192-210 | the first ACK or data that fits completes the handshake with the host's consent, frees the slot without it, and otherwise changes nothing |
| ReceiverRules.ResetRule | simulator/protocols/tcp/receiver_closing.go:75-90 | a reset ends the connection if and only if it is plain, at the next position, and validly acknowledged, in the handshake of our SYN; it answers nothing |
| ReceiverRules.FINConfirmRule | simulator/protocols/tcp/receiver_closing.go:170-191 | a pure ACK confirms our FIN if and only if it lies at the next position and acknowledges it, and the peer's FIN decides the next state |
| ReceiverRules.RepeatedFINRule | simulator/protocols/tcp/receiver_closing.go:92-110 | a repeat of the consumed FIN is answered with one packet, in LAST_ACK with our FIN again, unless it is the last ACK; another position changes nothing |
| ReceiverRules.PureACKRule | simulator/protocols/tcp/receiver_connection.go:87-98 | a pure ACK is never answered; at the next position it can stop the echo, elsewhere it changes nothing |
| ReceiverRules.IgnoredRule | simulator/protocols/tcp/receiver_connection.go:49-86 | malformed packets, unacceptable acknowledgements and data after the peer's FIN change nothing at all |
| ReceiverRules.TimerOutcomes | simulator/protocols/tcp/receiver_closing.go:224-257 | TIME_WAIT ends gracefully, FIN_WAIT_2 gives the peer up, and the FIN is repeated up to its own limit |
| ReceiverRules.HostRule | simulator/protocols/tcp/receiver_closing.go:47-73 | the host closes with a FIN at our next position, aborts with one reset, and forgets silently |
| SackReport.ReportTruthful | simulator/protocols/tcp/receiver_sack.go:15-63 | every report lists distinct current ranges, exactly min(4, ranges) of them, the triggering segment's range first |
| SackReport.ReportByAge | simulator/protocols/tcp/receiver_sack.go:36-63 | after the triggering range the report lists ranges in the order of their first mention in the previous report, and those never reported behind them in stream order |
| SackReport.Reporter.RecordArrival | simulator/protocols/tcp/receiver_sack.go:15-63 | in place: the fixed array of recent blocks becomes the functional report |
| SackReport.Reporter.IncludeBlock | simulator/protocols/tcp/receiver_sack.go:22-33 | in place: a block joins once and while there is room |
| RtoEstimator.RunInRange | simulator/protocols/tcp/rto.go:37-124 | after every event sequence the timeout lies within [minimum, maximum], and a sample removes backoff |
| RtoEstimator.MeanByChange | simulator/protocols/tcp/rto.go:67-77 | moving by the rounded-down share of the change is the rounded-down weighted mean |
| RtoEstimator.BackoffDoubles | simulator/protocols/tcp/rto.go:101-113 | consecutive timeouts double the wait until it saturates at the maximum |
| RtoEstimator.SampleRule | simulator/protocols/tcp/rto.go:37-97 | after a first sample R the mean is R and the deviation the floor of R/2; after a later one 8 * mean' is 7 * mean + R and 4 * deviation' is 3 * deviation + |mean - R|, each within its rounding; the timeout is the initial one, or adaptively the clamp of mean' + max(1, 4 * deviation'), without backoff |
| RtoEstimator.ConstantRTT | simulator/protocols/tcp/rto.go:47-63 | a constant RTT keeps the mean and lets the deviation fall by a quarter with each sample |
| RtoEstimator.HandshakeRule | simulator/protocols/tcp/rto.go:117-124 | a retried handshake raises an adaptive timeout to three seconds, or to a smaller maximum, and changes nothing else |
| RtoEstimator.Estimator.SmoothDuration | simulator/protocols/tcp/rto.go:67-77 | 64-bit arithmetic without overflow computes the exact weighted mean, rounded down |
| RtoEstimator.Estimator.MeasuredTimeout | simulator/protocols/tcp/rto.go:82-97 | 64-bit arithmetic without overflow computes the clamp of SRTT + max(G, 4 RTTVAR) |
| RtoEstimator.Estimator.ObserveRTT | simulator/protocols/tcp/rto.go:37-63 | in place: one sample updates mean, deviation and timeout |
| RtoEstimator.Estimator.BackOff | simulator/protocols/tcp/rto.go:101-113 | in place: doubles without overflow up to the maximum |
| RtoEstimator.Estimator.ConservativeAfterSYNRetry | simulator/protocols/tcp/rto.go:117-124 | in place: at least three seconds after a retried SYN, within the maximum |
| Engine.RunOrdered | simulator/engine/engine.go:134-181 | a run fires events in strictly increasing (time, number) order, none before now or after its bound, and completes with nothing due left |
| Engine.GoneNeverFires | simulator/engine/engine.go:120-131 | a number that is pending no more, and once was handed out, is in no new entry of any later trace |
| Engine.CancelledNeverFires | simulator/engine/engine.go:120-131 | after a cancellation the number is in no new entry of any later run, whatever the callbacks do |
| Engine.CallbackCancels | simulator/engine/engine.go:120-131 | so is a number that a callback cancels, for the rest of the run |
| Engine.FiredOnce | simulator/engine/engine.go:134-181 | a number that was fired is fired in no later run |
| Engine.PendingFires | simulator/engine/engine.go:134-181 | in a run that reaches its bound, a pending event within the bound that no callback cancels fires, at exactly its time |
| Engine.ResumeSame | simulator/engine/engine.go:134-181 | stopping at a smaller event limit and resuming is the same run |
| Engine.BatchesSame | simulator/internal/simulation/world.go:125-146 | splitting a run into batches of 4096 yields the same trace, clock and pending events |
| Engine.Engine.ScheduleAt | simulator/engine/engine.go:76-100 | in place: the heap and the lookup table gain one event, pending exactly at the given time under a fresh number, or none past the end; every other event keeps its time |
| Engine.Engine.ScheduleAfter | simulator/engine/engine.go:103-116 | in place: the same relative to now, without forming a time past the end |
| Engine.Engine.Cancel | simulator/engine/engine.go:120-131 | in place: afterwards the number is not pending, every other event keeps its time, clock, numbers and trace stay; the answer says whether it was pending |
| Engine.Engine.Fire | simulator/engine/engine.go:167-176 | in place: the root of the heap is the earliest pending event, and its callback acts |
| Engine.Engine.RunUntil | simulator/engine/engine.go:134-181 | in place: equals the run over the map of pending events; bounds outside the run are refused unchanged |
| Engine.Engine.AdvanceBatch | simulator/internal/simulation/world.go:125-146 | in place: one run under a lowered limit, which is restored |
| Engine.Engine.Advance | simulator/internal/simulation/world.go:114-121 | in place: batches until done equal one uninterrupted run |
| IndexedHeap.RootIsLeast | simulator/engine/engine.go:197-202 | the root of an ordered heap is earliest |
| IndexedHeap.Heap.Swap | simulator/engine/engine.go:204-207 | in place: two entries and their recorded positions change places |
| IndexedHeap.Heap.Push | simulator/engine/engine.go:209-213 | in place: the entry joins, order and positions stay right |
| IndexedHeap.Heap.Pop | simulator/engine/engine.go:215-223 | in place: the earliest entry leaves, the others stay ordered with right positions |
| IndexedHeap.Heap.Remove | simulator/engine/engine.go:120-131 | in place: the entry at any position leaves, the others stay ordered with right positions |
| Host.FIFOMultiServer | simulator/host/host.go:51-148 | for every run: waiters only while all cores are busy, callbacks in acceptance order, accepted = processed + discarded + active + queued |
| Host.CountersNeverOverflow | simulator/host/types.go:25-48 | busy time and waiting time are the exact areas under occupied cores and queue length, and the configuration check keeps both within 63 bits |
| Host.DueIsOldest | simulator/host/host.go:102-118 | the completion that is due belongs to the oldest work on a core |
| Host.NoCostNoTime | simulator/host/types.go:39-42 | without a processing cost cores and queue stay unused and both time counters stay zero |
| Host.RunInv | simulator/host/host.go:51-196 | conservation, work conservation, order and exact integrals hold after every step sequence |
| HostRules.SubmitRule | simulator/host/host.go:51-84 | work is refused if and only if the host is stopped, or the cost is not zero, all cores are busy and all waiting slots taken; otherwise it reaches its callback, a core until now plus the cost, or the end of the queue |
| HostRules.DropsOnlyWhenFull | simulator/host/host.go:75-84 | in every run the drop counter grows only in a submission that found every core busy and exactly the capacity waiting |
| HostRules.OnlySubmitDrops | simulator/host/host.go:75-84 | no other event counts a drop |
| HostRules.HoldsCoreForCost | simulator/host/host.go:87-118 | in every run work holds its core for exactly the processing cost |
| HostRules.CoreRule | simulator/host/host.go:87-118 | work on a core keeps its completion, and work that takes one completes the cost later |
| HostRules.PeakIsExact | simulator/host/host.go:80-83 | in every run the peak counter is the longest the queue has been |
| HostRules.WaitRule | simulator/host/host.go:87-118 | a wait ends when a completion frees a core for the oldest waiter, and is added to the total and the maximum |
| HostRules.DiscardRule | simulator/host/host.go:181-206 | discarding counts all work on cores and in the queue and includes the wait of the oldest; stopping does it once and refuses what follows |
| HostPool.Pool.Submit | simulator/host/host.go:51-84 | in place, equal to the pure transition: admission takes a core, a waiting slot or drops |
| HostPool.Pool.Start | simulator/host/host.go:87-99 | in place, equal to the pure transition: waiting time ends and a completion is scheduled |
| HostPool.Pool.Complete | simulator/host/host.go:102-118 | in place, equal to the pure transition: the freed core takes the oldest waiter before the callback |
| HostPool.Pool.DiscardPending | simulator/host/host.go:181-196 | in place, equal to the pure transition: abandons everything accepted and counts it |
| HostPool.Pool.Stop | simulator/host/host.go:199-206 | in place, equal to the pure transition: discards once and refuses from then on |
| Host.AccountedKeeps | simulator/host/host.go:151-155 | closing the open interval moves its start and not the integral: the counter plus the area since then is still the exact area under the occupied cores |
| HostPool.Pool.Perform | simulator/host/host.go:51-206 | in place: any event the engine may fire keeps the host invariant of the fields |
| HostPool.Pool.Play | simulator/host/host.go:51-148 | in place: after any run callbacks are in acceptance order, no work waits beside a free core, and accepted work is processed, discarded, on a core or waiting |
| HostPool.Pool.BusyTime | simulator/host/host.go:158-177 | reading the statistics gives the exact integral without changing anything |
| Fifo.Queue.Pop | simulator/network/link.go:272-298 | in place: first in, first out, and the consumed prefix kept in memory stays bounded |
| Fifo.Queue.Push | simulator/network/link.go:148-150 | in place: the packet joins at the end, and the consumed prefix stays bounded |
| Serialization.SerializationDuration | simulator/network/link.go:310-327 | two-word arithmetic gives exactly ceil(bytes * 8e9 / rate), and fails exactly when that leaves 63 bits |
| Serialization.DurationExact | simulator/network/link.go:310-327 | the duration is the least number of nanoseconds in which the rate carries the packet |
| Serialization.RoundedUp | simulator/network/link.go:316-322 | quotient plus one for a remainder is the ceiling |
| Serialization.TooLong | simulator/network/link.go:313-315 | a high word at or above the divisor means the duration does not fit |
| EgressSafety.OldestReadyFirst | simulator/network/egress.go:244-275 | for every run: each start took the smallest admission number among the ready heads, outputs are FIFO and within capacity, and every admission started once or waits |
| EgressSafety.OneWakeWhenAwaited | simulator/network/egress.go:324-344 | exactly one wake-up exists, at the grant, when a ready head awaits a grant within the horizon, and none otherwise |
| EgressSafety.NoReadyHeadWaitsOnFreeBudget | simulator/network/egress.go:244-280 | a ready head sees a free budget exactly in the instant its wake-up is due, and no virtual time passes while one does |
| EgressSafety.ReadyHeadMeetsFreeBudget | simulator/network/egress.go:324-344 | such an instant exists: a run of two outputs that ends with a ready head and a free budget |
| EgressSafety.BudgetWaitExact | simulator/network/egress.go:301-321 | the reported wait is the sum of all intervals in which some head was ready and the budget was not |
| EgressSafety.RateBound | simulator/network/egress.go:288-298 | in any window [a, b] of any run, packets started across all outputs, the last one excluded, carry at most rate * (b - a) bits |
| EgressSafety.ImmediateFits | simulator/network/egress.go:131-139 | an immediate start never occupies a waiting slot, not even of capacity zero |
| EgressSafety.OldestHasLeastNumber | simulator/network/egress.go:379-386 | ordering ready heads by age and number is ordering them by admission number |
| EgressSafety.DispatchedKeeps | simulator/network/egress.go:244-275 | after a dispatch, wake-up and wait match the outputs and the budget |
| EgressSafety.RunInv | simulator/network/egress.go:118-344 | the dispatcher invariant holds after every step sequence |
| EgressRules.LinkTimesExact | simulator/network/egress.go:261-273 | in every run an output is busy from its last start for exactly the serialization time of that packet at the output's own bandwidth, and consecutive starts of an output are at least that far apart: each waits for the one before |
| EgressRules.LinkRateBound | simulator/network/link.go:163-186 | in any window [a, b] of any run the packets started on one output, the last one excluded, carry at most its own bandwidth * (b - a) bits |
| EgressRules.TransmitRule | simulator/network/egress.go:118-182 | a packet starts at once if and only if its link and the budget are free and no output has a ready head; otherwise it is refused if and only if its queue is full or congestion is signalled to a sender without ECN; a mark is added exactly when a capable packet has to wait under congestion |
| EgressRules.BooksExact | simulator/network/egress.go:185-218 | after any run offered = accepted + dropped, accepted = forwarded + queued, forwarded bytes are those of the started packets, and the next grant is due exactly the cost of the last start later, or flagged as past the end |
| EgressRules.UsefulWakeKept | simulator/network/egress.go:324-344 | while the same grant is awaited the wake-up stays the same event |
| EgressDispatcher.Dispatcher.TransmitECN | simulator/network/egress.go:118-182 | in place, equal to the simple specification: admission, congestion signal, drop or dispatch |
| EgressDispatcher.Dispatcher.MarkReady | simulator/network/egress.go:233-241 | in place, equal to the simple specification: after a change of one output the heap holds each ready output once, and no other |
| EgressDispatcher.Dispatcher.PopOldest | simulator/network/egress.go:258-261 | in place, equal to the simple specification: the heap root is the one oldest ready output |
| EgressDispatcher.Dispatcher.Start | simulator/network/egress.go:261-273 | in place, equal to the simple specification: the head leaves its queue, the link is taken and the budget reserved |
| EgressDispatcher.Dispatcher.Drain | simulator/network/egress.go:258-274 | in place, equal to the simple specification: the loop starts oldest heads until none is ready or the budget is taken |
| EgressDispatcher.Dispatcher.Dispatch | simulator/network/egress.go:244-275 | in place, equal to the simple specification: the wait is closed before and after, and the wake-up follows the grant |
| EgressDispatcher.Dispatcher.ReserveBudget | simulator/network/egress.go:288-298 | in place, equal to the simple specification: a grant past the end only sets a flag |
| EgressDispatcher.Dispatcher.AccountBudgetWait | simulator/network/egress.go:317-321 | in place, equal to the simple specification: the open interval is added once |
| EgressDispatcher.Dispatcher.ScheduleBudgetWake | simulator/network/egress.go:324-344 | in place, equal to the simple specification: the useful wake-up is kept, any other cancelled |
| EgressDispatcher.Dispatcher.LinkReady | simulator/network/egress.go:100-104 | in place, equal to the simple specification: a finished transmission makes its output eligible and dispatches |
| EgressDispatcher.Dispatcher.WakeFired | simulator/network/egress.go:340-343 | in place, equal to the simple specification: the wake-up is forgotten and the budget used |
| EgressDispatcher.Dispatcher.Perform | simulator/network/egress.go:118-344 | in place: any event the engine may fire keeps heap, queues, budget, wake-up and wait consistent |
| EgressDispatcher.Dispatcher.Play | simulator/network/egress.go:244-275 | in place: after any run starts took the smallest ready admission, admissions are started or waiting, and the reported wait is the blocked time |
| EgressDispatcher.Dispatcher.BudgetWait | simulator/network/egress.go:185-190 | the statistics give the exact blocked time without changing anything |
| Ingress.OneGlobalFIFO | simulator/network/ingress.go:172-215 | for every run: the link serves admissions of all inputs in one order, survivors arrive in it, a free link means every input is empty, and no input exceeds its capacity |
| Ingress.SurvivorsOrdered | simulator/network/link.go:234-269 | the numbers of surviving transmissions increase and are exactly those not lost |
| Ingress.InputsBalance | simulator/network/ingress.go:66-127 | every input satisfies accepted = queued + transmitting + travelling + lost + delivered with exact current counters, and the aggregate is the sum |
| Ingress.OldestArrives | simulator/network/link.go:250-258 | with a constant travel time the earliest arrival event belongs to the oldest flight |
| Ingress.NextHead | simulator/network/ingress.go:177-195 | the next admission heads its input's queue, and every other head is younger |
| Ingress.RunInv | simulator/network/ingress.go:66-233 | the shared-link invariant holds after every step sequence |
| IngressRules.TransmitRule | simulator/network/ingress.go:66-127 | a free link takes the packet at once; otherwise it is refused if and only if its input's queue is full or congestion is signalled to a sender without ECN; marks and counters follow |
| IngressRules.LinkRule | simulator/network/ingress.go:172-215 | a transmission under way ends when it was going to, and the next one lasts exactly its packet's serialization time |
| IngressRules.TransmissionTime | simulator/network/link.go:234-268 | in every run a transmission lasts as long as its packet's bits need at the link's bandwidth |
| IngressRules.FlightRule | simulator/network/link.go:236-268 | a transmission that ends is lost or arrives exactly the travel time later, and a flight under way is not changed |
| IngressRules.BytesAddUp | simulator/network/ingress.go:66-127 | in every run each input's byte counters are the sums of the sizes of what it had accepted, transmitted, lost and delivered |
| IngressLink.SharedLink.Oldest | simulator/network/ingress.go:177-195 | in place, equal to one global FIFO: the scan finds the input holding the next admission, or that all are empty |
| IngressLink.SharedLink.Dispatch | simulator/network/ingress.go:172-215 | in place, equal to one global FIFO: a free link takes the oldest head |
| IngressLink.SharedLink.TransmitECN | simulator/network/ingress.go:66-127 | in place, equal to one global FIFO: admission, congestion signal, drop or dispatch |
| IngressLink.SharedLink.Complete | simulator/network/link.go:236-268 | in place, equal to one global FIFO: completion, loss or travel, then the next start |
| IngressLink.SharedLink.Finish | simulator/network/ingress.go:218-233 | in place, equal to one global FIFO: loss is attributed to the transmitting input by the change in the link's own counter |
| IngressLink.SharedLink.Arrive | simulator/network/ingress.go:203-208 | in place, equal to one global FIFO: a delivery is counted for the link and for its input |
| IngressLink.SharedLink.Perform | simulator/network/ingress.go:66-233 | in place: any event the engine may fire keeps the shared link's invariant |
| IngressLink.SharedLink.Play | simulator/network/ingress.go:172-215 | in place: after any run the survivors arrive in the order of admission over all inputs, and a free link means every input queue is empty |
| RunAdmission.LockNeverBlocks | simulator/run_controller.go:75-157 | under every interleaving: sending the stop token never blocks, no reservation means empty start and command queues, and a start is never refused for a full slot |
| RunAdmission.OneRunAtATime | simulator/run_controller.go:198-218 | under every interleaving: only the latest reserved run is held by the owner or queued, and its context is installed when the owner asks for it |
| RunAdmission.NoRunSeesAnothers | simulator/run_controller.go:127-157 | run numbers are 1, 2, 3, ..., each run executes at most once and in order, and no command accepted for one run is applied in another |
| RunAdmission.StopIsAcknowledgedEmpty | simulator/run_controller.go:221-231 | a stop is pending or being cleared until acknowledged, and acknowledging leaves queues, reservation and record empty |
| RunAdmission.StopCanComeTooLate | simulator/session.go:117-130 | a stop accepted between the owner's second context check and its begin does not keep that run from beginning: a run of the protocol that does so |
| RunAdmission.NothingNewBegins | simulator/session.go:86-160 | between any two moments of one unacknowledged stop no start is accepted, an owner that had not passed its second check at the first moment has not passed it at the second, and at most the one run that had begins, already with an ended context |
| RunAdmission.BeginsWhileStopping | simulator/session.go:101-130 | when a stop is accepted, some continuation begins a run before the stop is acknowledged if and only if the owner then stood past its second check |
| RunAdmission.DoomedRunIsCleared | simulator/runner.go:39-42 | a run that began with an ended context applies no command, is never recorded as finished or failed, leaves its loop at the first check and is then cleared |
| RunAdmission.RecordShowsTheRun | simulator/run_controller.go:160-177 | the record names an accepted run; it says running only from the run's begin until it is released or cleared, and finished or failed only for a run that completed undisturbed |
| RunAdmission.StepKeeps | simulator/session.go:86-174 | each lock-protected action of a submitter or of the owner keeps the protocol invariant |
| RunAdmission.RunInv | simulator/session.go:18-175 | the protocol invariant holds after every interleaving |
| RunRules.StartRule | simulator/run_controller.go:127-157 | in every reachable state a live start is accepted if and only if the service runs, nothing is reserved, no stop is pending and numbers are left; it gets the next number, a live context, an empty command queue and its record |
| RunRules.CommandRule | simulator/run_controller.go:97-110 | a live command is accepted if and only if a run is reserved, no stop is pending and fewer than 64 wait |
| RunRules.StopRule | simulator/run_controller.go:75-93 | the first stop sends one token and ends the reserved run's context, another before its acknowledgement changes nothing, and a cancelled request never does |
| RunRules.CheckRule | simulator/session.go:86-160 | each of the owner's checks sends an ended run to clearing and a live one on; an invalid configuration is never recorded as running; a run that lives at its end is recorded with how it ended |
| RunRules.BeginRule | simulator/session.go:117-130 | beginning records the run as running and changes nothing else of the controller |
| RunRules.CommandsInTurn | simulator/runner.go:25-56 | under every interleaving the commands applied in a run are the first ones accepted for it, in order, and until its release the others still wait |
| RunController.RunControl.SubmitStop | simulator/run_controller.go:82-93 | in place, equal to the atomic transition: cancels the run and sends the token once |
| RunController.RunControl.EnqueueStart | simulator/run_controller.go:127-157 | in place, equal to the atomic transition: closed, busy, exhausted, accepted or refused |
| RunController.RunControl.SubmitCommand | simulator/run_controller.go:97-110 | in place, equal to the atomic transition: only for a reserved, unstopped run with room |
| RunController.RunControl.FinishRun | simulator/run_controller.go:204-218 | in place, equal to the atomic transition: cancels and drains both queues |
| RunController.Session.Perform | simulator/session.go:86-174 | in place: any action of a submitter or of the owner keeps the protocol invariant of controller and owner |
| RunController.Session.Play | simulator/session.go:18-175 | in place: after any interleaving the stop slot is free unless a stop is unacknowledged, and without a reservation both queues are empty |
| Document.DocumentRoundTrip | simulator/scenario/document.go:58-121 | for every typed value: encoding succeeds exactly without non-finite floats, and decoding it gives the value back up to nil versus empty |
| Document.RoundTrip | simulator/scenario/document.go:152-265 | decoding any encoding, with members in any order at every level, gives the value back |
| Document.EncodeMeets | simulator/scenario/document.go:58-121 | the encoder writes each kept field once, under its name, and nothing else |
| Document.EncodeSucceeds | simulator/scenario/document.go:107-112 | encoding fails for non-finite floats only |
| Document.IntegerRoundTrip | simulator/scenario/document.go:320-333 | the decimal text of every integer passes the syntax check and is read back exactly |
| Document.IntegerDecodes | simulator/scenario/document.go:280-317 | every integer in range survives the split at 2^53 - 1 between numbers and strings |
| Document.OmittedSame | simulator/scenario/document.go:133-140 | an omitted field is restored by its zero value |
| Document.DecodedTyped | simulator/scenario/document.go:280-317 | whatever is accepted fits its type, integer ranges included |
| Document.MembersTyped | simulator/scenario/document.go:215-247 | every member of an accepted object names a field, none of them twice |
| DocumentRules.DecodeExact | simulator/scenario/document.go:152-317 | a document is accepted as a value if and only if it reads as it: an independent grammar in which members come in any order, each names a field at most once, absent fields are zero, null is for pointers, and integers are canonical |
| DocumentRules.IntegerExact | simulator/scenario/document.go:280-317 | an integer is accepted if and only if it is a number or string of its canonical text, in range for its type, and a number only within 2^53 - 1; a signed zero may bear a minus |
| DocumentRules.AcceptedIsCanonical | simulator/scenario/document.go:320-333 | only the text an integer is written as is read as it, apart from a negative zero |
| DocumentRules.NumberWhenSafe | simulator/scenario/document.go:84-104 | an integer is written as a number if and only if a browser holds it exactly |
| DocumentRules.OmissionRule | simulator/scenario/document.go:66-80 | the encoder leaves a field out if and only if it may be omitted and holds its zero value or an empty collection |
| Document.DecodeToken | simulator/scenario/document.go:152-212 | reads one value, with null for pointers only |
| Document.DecodeObject | simulator/scenario/document.go:215-247 | the loop over members rejects duplicates and unknown names and fills the target |
| Document.DecodeArray | simulator/scenario/document.go:250-265 | the loop over elements decodes each one |
| Redistribution.SharesSum | visualizer/src/scenarios/draft.ts:425-436 | the new counts add up to the target exactly |
| Redistribution.ShareRoundsQuota | visualizer/src/scenarios/draft.ts:426-436 | each count is its quota rounded down or one more, and only an inexact quota is rounded up |
| Redistribution.LeftoverBound | visualizer/src/scenarios/draft.ts:431-436 | the clients left over are fewer than the inexact quotas, hence than the groups |
| Redistribution.LargerStaysLarger | visualizer/src/scenarios/draft.ts:426-436 | a larger group never ends up smaller than a lesser one |
| Redistribution.EqualStayClose | visualizer/src/scenarios/draft.ts:426-436 | equal groups differ by at most one client, the earlier one being favoured |
| Redistribution.SameTotalUnchanged | visualizer/src/scenarios/draft.ts:419-436 | redistributing a nonzero total to itself changes nothing |
| Redistribution.LargestRemainderFirst | visualizer/src/scenarios/draft.ts:426-436 | whoever is rounded up has a larger remainder than anyone rounded down, or an equal one and an earlier position |
| Redistribution.ResizeRule | visualizer/src/scenarios/draft.ts:419-436 | a scenario with clients is scaled by group size, rounded down or up; one without is split evenly with the earlier groups ahead by at most one |
| Redistribution.NewCounts | visualizer/src/scenarios/draft.ts:425-436 | floors plus one client each down the order of remainders, computed by the loop |
| Redistribution.Workload.ResizeClients | visualizer/src/scenarios/draft.ts:406-446 | in place: counts become the shares and sum to the target, or the first group whose overrides would be lost is named and the rest left alone |
| DurationText.ShownIsRead | visualizer/src/scenarios/draft.ts:160-177 | showing a duration with any number of decimals and reading it again gives every nanosecond back |
| DurationText.ReadExact | visualizer/src/scenarios/draft.ts:161-168 | a text is read as a value if and only if it is digits without a leading zero, with an optional fraction of at most the given digits, that write exactly that value |
| DurationText.ShownIsShort | visualizer/src/scenarios/draft.ts:171-177 | what is shown has no zero at the end of its fraction and no dot without one |

## Left out

- SACK scoreboard, pipe estimate and congestion algorithms: their decisions (window, lost bytes, hole to repair, suppression, retransmission after a partial ACK) are arbitrary arguments of a step; `sack_recovery.go` appears only as those decisions and the recovery guards.
- Timers of the TCP model: which timers are armed is modelled, their delays are not; an armed timer may fire at any moment, so every timed run is one of the modelled runs. The send event, pacing and ECN holds are a step that may happen at any time, and idle timers are outside.
- Synchronous callbacks: emitting puts a packet into the network, and a host's admission is a boolean; re-entry of a sender, receiver or dispatcher through a callback is not modelled.
- SenderSteps.NeverStuck: the end of the experiment is not part of the TCP model. The engine schedules nothing past it, so there the source's timer fields are empty; an armed timer here includes one whose deadline lies past the end and that never fires.
- ReceiverSafety.NeverStuck: the same.
- TcpDeadEnds.RecoversExactlyWithTries: the same; the continuation may need more virtual time than the experiment has left, and a host that admits the connection. It says what can happen, not that it will: whether a fresh packet arrives is up to the network.
- Several connections: one flow and one incarnation of it; the map of connections, flow keys, SYN floods and idle cleanup are outside, and a reset only ends a run.
- Network: for safety it holds everything ever emitted and may deliver any of it at any time, or never, which covers loss, repetition, delay and reordering; for progress only packets emitted from the state on may arrive. The random sources and the queue policy's thresholds are booleans of a step.
- 64-bit positions: the composed model uses sequence numbers as integers and bounds them only where the source checks `MaxUint64`; streams are at most 2^63 - 1 bytes. The engine's and the links' number counters are unbounded; the panics at their last value end a run and are not modelled.
- Engine: callbacks are finite lists of schedules and cancels chosen from the trace; a callback that runs the engine again is refused by the source and is not modelled. Wall-clock pacing and cancellation of a batch by its context are outside.
- Egress outputs are values in a sequence that the dispatcher reassigns, with the engine's events beside them; the outputs' own lazily compacted slices are the separate `Fifo.Queue`. Per-output byte counters are not modelled.
- Inputs of the shared link are values likewise. An autonomous link with its own queue is modelled only through `Fifo.Queue` and the shared link.
- Whole-run `Stop` and `DiscardPending` of engine, links, ingress and egress: they reset state rather than keep it. The host's are modelled.
- Admission protocol: publishing, preparing and one round of the run's loop are single steps of the owner that fail or succeed, and an owner that leaves its loop on an error is one step. The record's copying is not modelled. A command counts as applied when it joins the run's events.
- Documents: JSON text, key order of the writer, string escaping, error paths and reflection; a finite float is its shortest text, and other spellings or out-of-range numbers are not distinguished. Struct fields excluded by a dash are not part of a schema, and a pointer never points to a pointer.
- Drafts: choosing a fresh identifier for the first group, unsafe client counts beyond 2^53, and surrounding spaces of a duration. The built-in sort is its stable result.
- Payload source: the paced finite stream is only its unsent byte count; its deadlines are simple next to the rest.
- Load balancing, routing, health probes, HTTP, WebSocket, telemetry, reports, command line and user interface.
