/** The sending end of one connection as a value, one function per operation.

    Which timers are armed is part of the state; their delays are not. An armed timer may fire
    at any moment, so every run of the timed sender is a run here. The congestion policy, the
    SACK scoreboard and the payload source's clock appear as the arguments of a step. */
module Sender {
  import opened Basics
  import opened Packets
  import SB = SendBuffer

  datatype Transfer = InProgress | Succeeded | Failed

  datatype Config = Config(
    mss: nat,
    receiveWindow: nat,
    maxFINRetries: nat,
    fastRetransmit: bool,
    sackEnabled: bool,
    ecnEnabled: bool)

  /** The RTT probe: `sentAt` indexes the log entry of the timed transmission. */
  datatype Probe = Probe(active: bool, sentAt: nat, endSeq: nat, recovering: bool, recoveryUntil: nat)

  const NO_PROBE := Probe(false, 0, 0, false, 0)

  /** What the sender did, in order. */
  datatype Entry =
    | Sent(start: nat, end: nat, again: bool)
    | Sampled(sentAt: nat, ack: nat)
    | Reduced(ack: nat, boundary: nat)

  datatype Handshake = Handshake(started: bool, completed: bool, synWaiting: bool, retries: nat)

  datatype Connection = Connection(
    tcp: TCPState,
    outcome: CloseOutcome,
    requested: bool,
    finSent: bool,
    finAcked: bool,
    peerFIN: bool,
    finSeq: nat,
    finRetries: nat)

  /** Sequence positions and what is pending between them. */
  datatype Space = Space(
    pending: seq<SB.Segment>,
    oldestRetries: nat,
    next: nat,
    una: nat,
    receive: nat,
    peerInitial: nat,
    windowEnd: nat,
    peerWindow: nat)

  /** The payload source (`unsent`), and what is still to be confirmed of it. */
  datatype Stream = Stream(
    unsent: Option<nat>,
    size: nat,
    remaining: int,
    acknowledged: int,
    completed: bool,
    transfer: Transfer)

  datatype Loss = Loss(
    duplicates: nat,
    until: nat,
    ecn: bool,
    reductionEnd: nat,
    cwrPending: bool,
    sack: bool,
    recovering: bool,
    sackDuplicates: nat,
    recoveryEnd: nat)

  /** The pending events besides the first SYN's: retries, the first FIN, and the last wait. */
  datatype Timers = Timers(syn: bool, data: bool, finStart: bool, fin: bool, wait: bool)

  const NO_TIMERS := Timers(false, false, false, false, false)

  datatype State = State(
    config: Config,
    terminated: bool,
    hs: Handshake,
    conn: Connection,
    space: Space,
    stream: Stream,
    probe: Probe,
    loss: Loss,
    timers: Timers,
    out: seq<Packet>,
    log: seq<Entry>)

  function Init(config: Config): State {
    State(config, false,
          Handshake(false, false, false, 0),
          Connection(Closed, NoOutcome, false, false, false, false, 0, 0),
          Space([], 0, 0, 0, 0, 0, 0, 0),
          Stream(None, 0, 0, 0, false, InProgress),
          NO_PROBE,
          Loss(0, 0, false, 0, false, false, false, 0, 0),
          NO_TIMERS, [], [])
  }

  /** What the policy, the scoreboard and the queue decide while one packet is handled. */
  datatype Choices = Choices(
    minimumWindow: bool,
    suppressFast: bool,
    retransmitOldest: bool,
    newSACKInformation: bool,
    boardLost: bool,
    hole: Option<SACKBlock>)

  // ---------- Emission, log, shutdown ----------

  function Emit(s: State, p: Packet): State {
    if s.terminated then s else s.(out := s.out + [p.(window := s.config.receiveWindow)])
  }

  function Record(s: State, entry: Entry): State {
    s.(log := s.log + [entry])
  }

  function EmitACK(s: State): State {
    Emit(s, Segment(ACK_FLAGS, 0, s.space.next, s.space.receive))
  }

  function Unsent(stream: Stream): nat {
    if stream.unsent.None? then 0 else stream.unsent.value
  }

  function BytesInFlight(s: State): int {
    if !s.hs.completed || s.conn.finSent || s.terminated then 0 else s.space.next - s.space.una
  }

  function Shutdown(s: State): State {
    if s.terminated then s else
      s.(terminated := true,
         stream := s.stream.(transfer := if s.stream.transfer.InProgress? then Failed else s.stream.transfer),
         conn := s.conn.(tcp := Closed, outcome := if s.conn.outcome.NoOutcome? then Aborted else s.conn.outcome),
         hs := s.hs.(synWaiting := false),
         space := s.space.(pending := [], oldestRetries := 0),
         loss := s.loss.(recovering := false, duplicates := 0, until := 0),
         timers := NO_TIMERS,
         probe := NO_PROBE)
  }

  function FinishConnection(s: State, outcome: CloseOutcome): State {
    if s.terminated then s else Shutdown(s.(conn := s.conn.(outcome := outcome)))
  }

  // ---------- RTT probe (Karn's rule) ----------

  /** Times the transmission about to be logged, unless another one or a recovery is running. */
  function StartProbe(s: State, end: nat): State {
    if s.probe.active || s.probe.recovering then s
    else s.(probe := s.probe.(active := true, sentAt := |s.log|, endSeq := end))
  }

  function InvalidateProbe(s: State): State {
    s.(probe := s.probe.(active := false, recovering := true, recoveryUntil := s.space.next))
  }

  function ObserveRTTACK(s: State, ack: nat): State {
    if s.probe.recovering then
      if ack >= s.probe.recoveryUntil then s.(probe := s.probe.(recovering := false)) else s
    else if !s.probe.active || ack < s.probe.endSeq then s
    else Record(s.(probe := s.probe.(active := false)), Sampled(s.probe.sentAt, ack))
  }

  // ---------- Handshake ----------

  function Establish(s: State): State {
    if s.terminated || s.conn.requested || s.hs.started then s else
      s.(hs := s.hs.(started := true, synWaiting := true),
         conn := s.conn.(tcp := SynSent),
         space := s.space.(next := 1))
  }

  function SynPacket(s: State): Packet {
    Segment(NO_FLAGS.(syn := true, ece := s.config.ecnEnabled, cwr := s.config.ecnEnabled), 0, 0, 0)
      .(sackPermitted := s.config.sackEnabled)
  }

  function SendSyn(s: State): State {
    var probed := if s.hs.retries == 0 then StartProbe(s, 1) else s;
    Emit(Record(probed.(timers := s.timers.(syn := true)), Sent(0, 1, s.hs.retries > 0)), SynPacket(s))
  }

  /** The zero-delay event that sends the first SYN. */
  function SynSend(s: State): State {
    if !s.hs.synWaiting then s else
      var fired := s.(hs := s.hs.(synWaiting := false));
      if s.terminated || s.conn.finSent || s.hs.completed then fired else SendSyn(fired)
  }

  /** Each firing consumes its event; a retry arms the next one before it sends. */
  function SynTimeout(s: State): State {
    if !s.timers.syn then s
    else if s.terminated || s.conn.finSent || s.hs.completed then s.(timers := s.timers.(syn := false))
    else if s.hs.retries >= MAX_RETRANSMISSIONS then Shutdown(s)
    else SendSyn(InvalidateProbe(s.(hs := s.hs.(retries := s.hs.retries + 1))))
  }

  function ReceiveWindowEnd(ack: nat, window: nat): nat
    requires ack <= MAX_UINT64
  {
    ack + Min(window, MAX_UINT64 - ack)
  }

  /** The first acceptable SYN-ACK, once its RTT was observed. */
  function OpenConnection(s: State, p: Packet, end: nat): State {
    s.(hs := s.hs.(completed := true, retries := 0),
       conn := s.conn.(tcp := Established),
       timers := s.timers.(syn := false),
       space := s.space.(peerInitial := p.seqNo, receive := end, una := 1,
                         windowEnd := ReceiveWindowEnd(1, p.window), peerWindow := p.window),
       loss := s.loss.(sack := s.config.sackEnabled && p.sackPermitted,
                       ecn := s.config.ecnEnabled && p.flags.ece && !p.flags.cwr))
  }

  function HandleSynAck(s: State, p: Packet, end: nat): State {
    if !s.hs.started || !p.flags.syn || !p.flags.ack || p.flags.psh || p.size != 0 || p.ackNo != 1 then s
    else if s.hs.completed then
      if p.seqNo != s.space.peerInitial then s else QueueSegment(EmitACK(s))
    else QueueSegment(EmitACK(OpenConnection(ObserveRTTACK(s, p.ackNo), p, end)))
  }

  // ---------- Stream ----------

  function SetSource(s: State, size: nat): State {
    if s.terminated || s.conn.requested || s.stream.unsent.Some? then s else
      var accepted := s.(stream := s.stream.(unsent := Some(size), size := size, remaining := size));
      if s.hs.completed then QueueSegment(accepted) else accepted
  }

  function FinishStream(s: State): State {
    s.(stream := s.stream.(completed := true, transfer := Succeeded), conn := s.conn.(requested := true))
  }

  /** Everything `queueSegment` changes at once: a drained stream finishes and closes. */
  function QueueSegment(s: State): State {
    if s.terminated || s.conn.finSent || !s.hs.completed || s.stream.unsent.None? then s
    else if s.stream.remaining == 0 && !s.stream.completed then StartFIN(FinishStream(s))
    else s
  }

  function Close(s: State): State {
    if s.terminated then s
    else if !s.hs.completed then Shutdown(s)
    else QueueSegment(StartFIN(s.(conn := s.conn.(requested := true))))
  }

  /** How much new payload fits both windows; `limit` is absent when no policy limits it. */
  function NextPayloadSize(s: State, limit: Option<nat>, pipe: nat): nat {
    if s.space.windowEnd <= s.space.next then 0 else
      var flight := if s.loss.recovering then pipe else BytesInFlight(s);
      var room := if limit.None? then MAX_INT64 else Max(0, limit.value - flight);
      if s.loss.recovering && room < s.config.mss then 0
      else Min(Min(Unsent(s.stream), s.config.mss), Min(s.space.windowEnd - s.space.next, room))
  }

  /** `size` fresh bytes leave the source and join the pending segments. */
  function TakePayload(s: State, size: nat): State
    requires size <= Unsent(s.stream)
  {
    s.(space := s.space.(next := s.space.next + size,
                         pending := s.space.pending + [SB.Segment(s.space.next, size, s.space.receive)]),
       stream := s.stream.(unsent := Some(Unsent(s.stream) - size)))
  }

  /** One firing of the send event. */
  function SendNew(s: State, limit: Option<nat>, pipe: nat): State {
    if s.terminated || s.conn.finSent || !s.hs.completed || s.stream.unsent.None? then s else
      var size := NextPayloadSize(s, limit, pipe);
      if size == 0 then s else
        var end := s.space.next + size;
        var taken := Record(StartProbe(TakePayload(s, size), end), Sent(s.space.next, end, false));
        var marked := taken.(loss := s.loss.(cwrPending := s.loss.cwrPending && !s.loss.ecn), timers := s.timers.(data := true));
        QueueSegment(Emit(marked, Segment(DATA_FLAGS.(cwr := s.loss.ecn && s.loss.cwrPending),
                                          size, s.space.next, s.space.receive)))
  }

  // ---------- Retransmission ----------

  function RecordReduction(s: State): State {
    if s.loss.ecn then s.(loss := s.loss.(reductionEnd := s.space.next, cwrPending := true)) else s
  }

  /** Counts one more try of the oldest bytes and withdraws the RTT probe. */
  function RecordRetry(s: State, start: nat, end: nat): State {
    var counted := if start == s.space.una
                   then s.(space := s.space.(oldestRetries := s.space.oldestRetries + 1)) else s;
    Record(InvalidateProbe(counted), Sent(start, end, true))
  }

  /** Restarts the retransmission timer of the oldest unconfirmed bytes. */
  function ArmData(s: State): State {
    s.(timers := s.timers.(data := true))
  }

  /** Repeats the oldest stored fragment as it was sent, or gives up; `Some` carries the packet. */
  function PrepareDataRetry(s: State): (State, Option<Packet>) {
    if s.terminated || s.conn.finSent || s.space.pending == [] then (s, None)
    else if s.space.oldestRetries >= MAX_RETRANSMISSIONS then (Shutdown(s), None)
    else
      var oldest := s.space.pending[0];
      (RecordRetry(s, oldest.seqNo, oldest.seqNo + oldest.size),
       Some(Segment(DATA_FLAGS, oldest.size, oldest.seqNo, oldest.ack)))
  }

  /** The loss guards after a retransmission timeout. */
  function TimeoutLoss(s: State): State {
    var reset := if s.loss.sack
                 then s.loss.(recovering := false, sackDuplicates := 0, recoveryEnd := s.space.next)
                 else s.loss;
    RecordReduction(s.(loss := reset.(duplicates := 0, until := s.space.next)))
  }

  function RetransmitData(s: State): State {
    if !s.timers.data then s else
      var (retried, packet) := PrepareDataRetry(s);
      if packet.None? then retried.(timers := retried.timers.(data := false))
      else Emit(ArmData(TimeoutLoss(retried)), packet.value)
  }

  function FastRetransmitOldest(s: State, restart: bool): State {
    var (retried, packet) := PrepareDataRetry(s);
    if packet.None? then retried else Emit(if restart then ArmData(retried) else retried, packet.value)
  }

  /** The window reduction of one loss or ECN response, unless this flight had one. */
  function ReduceOnce(s: State, ack: nat, already: bool): State {
    if already then s else Record(RecordReduction(s), Reduced(ack, s.space.next))
  }

  /** A duplicate ACK; the third one of a flight asks for a fast retransmission. */
  function DuplicateACK(s: State, c: Choices): (State, bool) {
    if !s.config.fastRetransmit || BytesInFlight(s) == 0 then (s, false) else
      var counted := s.loss.(duplicates := s.loss.duplicates + 1);
      if s.loss.until != 0 || counted.duplicates != 3 || c.suppressFast then (s.(loss := counted), false) else
        var already := s.loss.ecn && s.space.una < s.loss.reductionEnd;
        (ReduceOnce(s.(loss := counted.(until := s.space.next)), s.space.una, already), true)
  }

  predicate Outstanding(s: State, hole: SACKBlock) {
    s.space.una <= hole.start < hole.end <= s.space.next
  }

  /** One selective repair of missing bytes inside the outstanding range. */
  function RepairHole(s: State, hole: SACKBlock): State {
    if s.terminated || s.conn.finSent || !s.loss.recovering || !Outstanding(s, hole) then s
    else if hole.start == s.space.una && s.space.oldestRetries >= MAX_RETRANSMISSIONS then Shutdown(s)
    else Emit(ArmData(RecordRetry(s, hole.start, hole.end)),
              Segment(DATA_FLAGS, hole.end - hole.start, hole.start, s.space.receive))
  }

  /** SACK evidence of a loss: one recovery, and at most one reduction, per flight. */
  function EnterRecovery(s: State, c: Choices): State {
    var already := s.loss.ecn && s.space.una < s.loss.reductionEnd;
    var entered := s.(loss := s.loss.(recovering := true, recoveryEnd := s.space.next, until := s.space.next));
    var reduced := ReduceOnce(entered, s.space.una, already);
    if c.hole.None? then reduced else RepairHole(reduced, c.hole.value)
  }

  function ObserveSACK(s: State, c: Choices, advanced: bool): State {
    if s.terminated || s.space.pending == [] then s else
      var before := if advanced then 0 else s.loss.sackDuplicates;
      if s.loss.recovering || !c.newSACKInformation then s.(loss := s.loss.(sackDuplicates := before)) else
        var counted := s.(loss := s.loss.(sackDuplicates := before + 1, duplicates := before + 1));
        if s.space.una < s.loss.recoveryEnd || !(before + 1 >= 3 || c.boardLost) || c.suppressFast
        then counted
        else EnterRecovery(counted, c)
  }

  // ---------- ACK side ----------

  function ObserveECN(s: State, p: Packet, c: Choices): State {
    if !s.loss.ecn || p.ackNo < s.space.una || !p.flags.ece then s
    else if s.space.pending == [] && !(c.minimumWindow && Unsent(s.stream) > 0) then s
    else ReduceOnce(s, p.ackNo, s.loss.reductionEnd != 0 && p.ackNo <= s.loss.reductionEnd)
  }

  /** New bytes confirmed: positions, stream and guards move together. */
  function ReleaseBytes(s: State, ack: nat): State
    requires ack >= s.space.una
  {
    var bytes := ack - s.space.una;
    s.(space := s.space.(una := ack, pending := SB.Acknowledged(s.space.pending, ack), oldestRetries := 0),
       stream := s.stream.(remaining := s.stream.remaining - bytes, acknowledged := s.stream.acknowledged + bytes),
       loss := s.loss.(recovering := s.loss.recovering && ack < s.loss.recoveryEnd,
                       duplicates := 0,
                       until := if ack >= s.loss.until then 0 else s.loss.until),
       timers := s.timers.(data := SB.Acknowledged(s.space.pending, ack) != []))
  }

  function AcknowledgeData(s: State, p: Packet, c: Choices): State
    requires p.ackNo >= s.space.una
  {
    var moved := ReleaseBytes(ObserveRTTACK(s, p.ackNo), p.ackNo);
    var retried := if c.retransmitOldest then FastRetransmitOldest(moved, false) else moved;
    if !s.loss.sack && !p.flags.fin then QueueSegment(retried) else retried
  }

  function RepeatedACK(s: State, p: Packet, c: Choices, windowUnchanged: bool): State {
    if s.loss.sack then s else
      var (counted, retry) := if !p.flags.fin && windowUnchanged && s.space.pending != []
                              then DuplicateACK(s, c) else (s, false);
      var retried := if retry then FastRetransmitOldest(counted, true) else counted;
      if p.flags.fin then retried else QueueSegment(retried)
  }

  function UpdateWindow(s: State, p: Packet): State
    requires p.ackNo <= MAX_UINT64
  {
    s.(space := s.space.(windowEnd := ReceiveWindowEnd(p.ackNo, p.window), peerWindow := p.window))
  }

  function HandleDataACK(s: State, p: Packet, c: Choices): State
    requires p.ackNo <= MAX_UINT64
  {
    if p.ackNo < s.space.una then s
    else if p.ackNo == s.space.una then RepeatedACK(UpdateWindow(s, p), p, c, p.window == s.space.peerWindow)
    else if s.space.pending == [] then UpdateWindow(s, p)
    else AcknowledgeData(UpdateWindow(s, p), p, c)
  }

  // ---------- Closing ----------

  /** Reserves one position for FIN once all accepted payload is acknowledged. */
  function StartFIN(s: State): State {
    if s.terminated || s.conn.finSent || !s.conn.requested || Unsent(s.stream) != 0 || s.space.pending != [] then s
    else
      s.(conn := s.conn.(finSent := true, finSeq := s.space.next,
                         tcp := if s.conn.peerFIN then LastAck else FinWait1),
         space := s.space.(next := s.space.next + 1),
         timers := s.timers.(data := false, finStart := true),
         loss := s.loss.(duplicates := 0, until := 0))
  }

  function EmitFIN(s: State): State {
    Emit(s, Segment(FIN_FLAGS, 0, s.conn.finSeq, s.space.receive))
  }

  /** The zero-delay event that sends the first FIN. */
  function FinSend(s: State): State {
    if !s.timers.finStart then s
    else if s.conn.finAcked || s.terminated then s.(timers := s.timers.(finStart := false))
    else EmitFIN(s.(timers := s.timers.(finStart := false, fin := true)))
  }

  function RetryFIN(s: State): State {
    if !s.timers.fin then s
    else if s.conn.finAcked || s.terminated then s.(timers := s.timers.(fin := false))
    else if s.conn.finRetries >= s.config.maxFINRetries then FinishConnection(s, FINRetryLimit)
    else EmitFIN(s.(conn := s.conn.(finRetries := s.conn.finRetries + 1)))
  }

  function AcknowledgeFIN(s: State, ack: nat): State {
    if !s.conn.finSent || s.conn.finAcked || ack != s.conn.finSeq + 1 then s else
      var acked := s.(conn := s.conn.(finAcked := true), timers := s.timers.(fin := false));
      if s.conn.tcp.LastAck? then FinishConnection(acked, Graceful)
      else if s.conn.tcp.FinWait1? || s.conn.tcp.Closing? then
        if s.conn.peerFIN then EnterTimeWait(acked)
        else acked.(conn := acked.conn.(tcp := FinWait2), timers := acked.timers.(wait := true))
      else acked
  }

  /** Both directions are done; one more wait, restarted by every repeat of the peer's FIN. */
  function EnterTimeWait(s: State): State {
    s.(conn := s.conn.(tcp := TimeWait), timers := s.timers.(fin := false, wait := true))
  }

  /** The peer's FIN is taken: its position counts as received. */
  function ConsumeFIN(s: State, end: nat, tcp: TCPState, requested: bool): State {
    s.(conn := s.conn.(peerFIN := true, tcp := tcp, requested := requested),
       space := s.space.(receive := end))
  }

  function HandleFIN(s: State, p: Packet, end: nat): State {
    if p.size != 0 || !p.flags.ack || p.ackNo > s.space.next then s
    else if s.conn.peerFIN then
      if end != s.space.receive then s
      else EmitACK(if s.conn.tcp.TimeWait? then EnterTimeWait(s) else s)
    else if p.seqNo != s.space.receive then s
    else if s.conn.finSent then
      var consumed := ConsumeFIN(s, end, if s.conn.finAcked then TimeWait else Closing, s.conn.requested);
      EmitACK(if s.conn.finAcked then EnterTimeWait(consumed) else consumed)
    else
      StartFIN(QueueSegment(EmitACK(ConsumeFIN(s, end, CloseWait, true))))
  }

  function HandleReset(s: State, p: Packet): State {
    if p.size != 0 || p.flags.syn || p.flags.fin || p.flags.psh then s
    else if !s.hs.completed && (!s.hs.started || !p.flags.ack || p.ackNo != s.space.next) then s
    else if s.hs.completed && p.seqNo != s.space.receive then s
    else if s.hs.completed && p.flags.ack && (p.ackNo < 1 || p.ackNo > s.space.next) then s
    else FinishConnection(s, Reset)
  }

  /** The wait timer: TIME_WAIT ends gracefully, FIN_WAIT_2 gives the peer up. */
  function WaitExpired(s: State): State {
    if !s.timers.wait then s else FinishConnection(s, if s.conn.tcp.TimeWait? then Graceful else WaitTimeout)
  }

  // ---------- One arriving packet ----------

  predicate AcceptableACK(s: State, p: Packet) {
    s.hs.completed && p.flags.ack && p.size == 0 && 1 <= p.ackNo <= s.space.next && p.ackNo <= MAX_UINT64
  }

  function HandlePacket(s: State, p: Packet, c: Choices): State {
    if s.terminated || !ValidSACKOptions(p) || SequenceEnd(p).None? || (p.flags.syn && p.flags.fin) then s
    else if p.flags.fin && (p.size != 0 || p.flags.psh) then s
    else if p.flags.rst then HandleReset(s, p)
    else if p.flags.syn then
      if s.conn.finSent then s else HandleSynAck(s, p, SequenceEnd(p).value)
    else if !AcceptableACK(s, p) then s
    else HandleACK(s, p, SequenceEnd(p).value, c)
  }

  predicate RepeatedFIN(s: State, p: Packet, end: nat) {
    p.flags.fin && s.conn.peerFIN && end == s.space.receive
  }

  function HandleACK(s: State, p: Packet, end: nat, c: Choices): State
    requires p.ackNo <= MAX_UINT64
  {
    if p.seqNo != s.space.receive && !RepeatedFIN(s, p, end) then s else
      var marked := ObserveECN(s, p, c);
      var acked := if s.conn.finSent then AcknowledgeFIN(marked, p.ackNo) else HandleDataACK(marked, p, c);
      var closed := if p.flags.fin && !acked.terminated then HandleFIN(acked, p, end) else acked;
      if s.conn.finSent || closed.space.una != Max(s.space.una, p.ackNo) then closed
      else FollowUp(closed, RepeatedFIN(s, p, end), c, p.ackNo > s.space.una)
  }

  /** Selective repair and new data after the packet's own effects are in place. */
  function FollowUp(s: State, repeatedFIN: bool, c: Choices, advanced: bool): State {
    var repaired := if s.loss.sack then ObserveSACK(s, c, advanced) else s;
    if s.loss.sack || repeatedFIN then QueueSegment(repaired) else repaired
  }

  // ---------- Everything that can happen to a sender ----------

  datatype Input =
    | DoEstablish
    | DoSetSource(size: nat)
    | DoClose
    | DoShutdown
    | SynSendFires
    | SynTimerFires
    | SendFires(limit: Option<nat>, pipe: nat)
    | DataTimerFires
    | Repair(hole: SACKBlock)
    | FinSendFires
    | FinTimerFires
    | WaitTimerFires
    | Arrives(packet: Packet, choices: Choices)

  function Step(s: State, i: Input): State {
    match i
    case DoEstablish => Establish(s)
    case DoSetSource(size) => if size <= MAX_INT64 then SetSource(s, size) else s
    case DoClose => Close(s)
    case DoShutdown => Shutdown(s)
    case SynSendFires => SynSend(s)
    case SynTimerFires => SynTimeout(s)
    case SendFires(limit, pipe) => SendNew(s, limit, pipe)
    case DataTimerFires => RetransmitData(s)
    case Repair(hole) => RepairHole(s, hole)
    case FinSendFires => FinSend(s)
    case FinTimerFires => RetryFIN(s)
    case WaitTimerFires => WaitExpired(s)
    case Arrives(p, c) => HandlePacket(s, p, c)
  }

  function Run(config: Config, inputs: seq<Input>): State
    decreases |inputs|
  {
    if inputs == [] then Init(config) else Step(Run(config, inputs[..|inputs| - 1]), inputs[|inputs| - 1])
  }
}
