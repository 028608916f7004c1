/** The receiving end of one connection as a value, one function per operation.

    One incarnation per flow: after the connection is released nothing more is accepted.
    Host admission is the argument of a step; an armed timer may fire at any moment, and which
    timers are armed is part of the state. */
module Receiver {
  import opened Basics
  import opened Packets
  import RB = ReceiveBuffer
  import SR = SackReport

  datatype Config = Config(
    capacity: nat,
    sackEnabled: bool,
    ecnEnabled: bool,
    delayACK: bool,
    segmentsPerACK: nat,
    maxFINRetries: nat)

  ghost predicate ValidConfig(config: Config) {
    1 <= config.capacity <= MAX_UINT16 && 1 <= config.segmentsPerACK <= 2
  }

  /** No connection yet, one connection, or released for good. */
  datatype Phase = Listening | Open | Released

  datatype Connection = Connection(
    established: bool,
    tcp: TCPState,
    outcome: CloseOutcome,
    peerInitial: nat,
    next: nat,
    finSent: bool,
    finAcked: bool,
    finSeq: nat,
    finRetries: nat,
    finTimeouts: nat,
    peerFIN: bool,
    peerFINSeq: nat,
    pendingFIN: bool,
    pendingFINSeq: nat)

  datatype Feedback = Feedback(
    sack: bool,
    recent: seq<SACKBlock>,
    ecn: bool,
    echo: bool,
    waitingSegments: nat)

  /** The pending events: the delayed ACK, the FIN retry, and the last wait. */
  datatype Timers = Timers(ack: bool, fin: bool, wait: bool)

  const NO_TIMERS := Timers(false, false, false)

  datatype State = State(
    config: Config,
    phase: Phase,
    conn: Connection,
    buffer: RB.View,
    feedback: Feedback,
    timers: Timers,
    received: int,
    active: int,
    halfOpen: int,
    out: seq<Packet>)

  function Init(config: Config): State {
    State(config, Listening,
          Connection(false, Closed, NoOutcome, 0, 0, false, false, 0, 0, 0, false, 0, false, 0),
          RB.View(0, config.capacity, 0, []),
          Feedback(false, [], false, false, 0),
          NO_TIMERS, 0, 0, 0, [])
  }

  // ---------- Emission ----------

  function Emit(s: State, p: Packet): State {
    s.(out := s.out + [p])
  }

  function Reply(s: State, flags: Flags, seqNo: nat): Packet {
    Segment(flags.(ece := s.feedback.ecn && s.feedback.echo), 0, seqNo, s.buffer.next)
      .(window := RB.WindowBytes(s.buffer), sackBlocks := s.feedback.recent)
  }

  function CancelDelay(s: State): State {
    s.(feedback := s.feedback.(waitingSegments := 0), timers := s.timers.(ack := false))
  }

  function Acknowledge(s: State): State {
    if !s.phase.Open? then s else Emit(CancelDelay(s), Reply(s, ACK_FLAGS, s.conn.next))
  }

  function AcknowledgeData(s: State, mayDelay: bool): State {
    if !s.config.delayACK || !mayDelay || !s.conn.tcp.Established? || s.conn.pendingFIN then Acknowledge(s)
    else
      var waiting := s.(feedback := s.feedback.(waitingSegments := s.feedback.waitingSegments + 1));
      if waiting.feedback.waitingSegments >= s.config.segmentsPerACK then Acknowledge(waiting)
      else if waiting.feedback.waitingSegments == 1 then waiting.(timers := s.timers.(ack := true))
      else waiting
  }

  /** The delayed-ACK deadline. */
  function DelayExpired(s: State): State {
    if !s.timers.ack || s.feedback.waitingSegments == 0 then s else Acknowledge(s)
  }

  function EmitFIN(s: State): State {
    Emit(CancelDelay(s), Reply(s, FIN_FLAGS, s.conn.finSeq))
  }

  // ---------- Opening and releasing ----------

  function Finish(s: State, outcome: CloseOutcome): State {
    if !s.phase.Open? then s else
      s.(phase := Released,
         conn := s.conn.(tcp := Closed, outcome := outcome),
         feedback := s.feedback.(waitingSegments := 0),
         timers := NO_TIMERS,
         active := if s.conn.established && s.active > 0 then s.active - 1 else s.active,
         halfOpen := if !s.conn.established && s.halfOpen > 0 then s.halfOpen - 1 else s.halfOpen)
  }

  function OpenSlot(s: State, p: Packet, end: nat): State {
    s.(phase := Open,
       conn := s.conn.(tcp := SynReceived, peerInitial := p.seqNo, next := 1),
       buffer := RB.View(end, s.config.capacity, 0, []),
       feedback := Feedback(s.config.sackEnabled && p.sackPermitted, [],
                            s.config.ecnEnabled && p.flags.ece && p.flags.cwr, false, 0),
       timers := NO_TIMERS,
       halfOpen := s.halfOpen + 1)
  }

  function SynAck(s: State): Packet {
    Segment(NO_FLAGS.(syn := true, ack := true, ece := s.feedback.ecn), 0, 0, s.conn.peerInitial + 1)
      .(window := RB.WindowBytes(s.buffer), sackPermitted := s.feedback.sack)
  }

  function HandleSYN(s: State, p: Packet, end: nat, canOpen: bool): State {
    if p.size != 0 || p.flags.ack || s.phase.Released? || (s.phase.Listening? && !canOpen) then s else
      var slot := if s.phase.Listening? then OpenSlot(s, p, end) else s;
      if p.seqNo != slot.conn.peerInitial || slot.conn.finSent then slot
      else Emit(slot, SynAck(slot))
  }

  /** The handshake ends: the host's consent makes the slot active, its refusal frees it. */
  function EstablishConnection(s: State, canEstablish: bool): (State, bool) {
    if !canEstablish then (Finish(s, Aborted), false) else
      (s.(conn := s.conn.(established := true, tcp := Established),
          halfOpen := if s.halfOpen > 0 then s.halfOpen - 1 else s.halfOpen,
          active := s.active + 1), true)
  }

  predicate ValidACK(s: State, ack: nat) {
    1 <= ack <= s.conn.next
  }

  function HandleReset(s: State, p: Packet): State {
    if !s.phase.Open? || p.size != 0 || p.flags.syn || p.flags.fin || p.flags.psh || p.seqNo != s.buffer.next then s
    else if p.flags.ack && !ValidACK(s, p.ackNo) then s
    else if s.conn.tcp.SynReceived? && (!p.flags.ack || p.ackNo != s.conn.next) then s
    else Finish(s, Reset)
  }

  function ObserveECN(s: State, p: Packet): State {
    if !s.feedback.ecn then s else
      var cleared := s.feedback.echo && !p.flags.cwr;
      s.(feedback := s.feedback.(echo := cleared || (p.size > 0 && p.ce)))
  }

  // ---------- Closing ----------

  function StartFIN(s: State, tcp: TCPState): State {
    EmitFIN(s.(conn := s.conn.(tcp := tcp, finSent := true, finSeq := s.conn.next, next := s.conn.next + 1),
               timers := s.timers.(fin := true)))
  }

  /** Half a close: our FIN goes out, and the other direction stays open. */
  function CloseConnection(s: State): State {
    if !s.phase.Open? || !s.conn.established || !s.conn.tcp.Established? then s else StartFIN(s, FinWait1)
  }

  function AbortConnection(s: State): State {
    if !s.phase.Open? then s else
      Emit(Finish(s, Aborted), Segment(ACK_FLAGS.(rst := true), 0, s.conn.next, s.buffer.next))
  }

  /** Confirms our FIN; false when that ends the connection. */
  function AcknowledgeFIN(s: State, ack: nat): (State, bool) {
    if !s.conn.finSent || s.conn.finAcked || ack != s.conn.next then (s, true) else
      var acked := s.(conn := s.conn.(finAcked := true), timers := s.timers.(fin := false));
      if s.conn.tcp.FinWait1? then
        (acked.(conn := acked.conn.(tcp := FinWait2), timers := acked.timers.(wait := true)), true)
      else if s.conn.tcp.Closing? then (EnterTimeWait(acked), true)
      else if s.conn.tcp.LastAck? then (Finish(acked, Graceful), false)
      else (acked, true)
  }

  function EnterTimeWait(s: State): State {
    s.(conn := s.conn.(tcp := TimeWait), feedback := s.feedback.(waitingSegments := 0),
       timers := Timers(false, false, true))
  }

  /** The FIN is the next position expected: it is taken and answered as the closing state demands. */
  function ConsumeFIN(s: State, sequence: nat): State {
    var consumed := s.(conn := s.conn.(pendingFIN := false, peerFIN := true, peerFINSeq := sequence),
                       buffer := s.buffer.(next := s.buffer.next + 1));
    if s.conn.tcp.Established? then StartFIN(consumed, LastAck)
    else if s.conn.tcp.FinWait1? then Acknowledge(consumed.(conn := consumed.conn.(tcp := Closing)))
    else if s.conn.tcp.FinWait2? then Acknowledge(EnterTimeWait(consumed))
    else Acknowledge(consumed)
  }

  /** A FIN whose position was already consumed. */
  function RepeatedFIN(s: State, p: Packet): State {
    if p.seqNo != s.conn.peerFINSeq then s else
      var (acked, open) := AcknowledgeFIN(s, p.ackNo);
      if !open then acked else
        AnswerRepeatedFIN(ObserveECN(acked, p))
  }

  function AnswerRepeatedFIN(s: State): State {
    if s.conn.tcp.LastAck? then EmitFIN(s.(conn := s.conn.(finRetries := s.conn.finRetries + 1)))
    else Acknowledge(if s.conn.tcp.TimeWait? then EnterTimeWait(s) else s)
  }

  predicate FINFits(s: State, p: Packet) {
    && s.buffer.next <= p.seqNo < s.buffer.next + RB.WindowBytes(s.buffer)
    && (s.conn.pendingFIN ==> p.seqNo == s.conn.pendingFINSeq)
    && forall r :: r in s.buffer.ranges ==> r.end <= p.seqNo
  }

  function HandleFIN(s: State, p: Packet, canEstablish: bool): State {
    if p.size != 0 || p.flags.psh then s
    else if s.conn.peerFIN then RepeatedFIN(s, p)
    else if !FINFits(s, p) then s
    else
      var (entered, ok) := if s.conn.established then (s, true) else EstablishConnection(s, canEstablish);
      if !ok then entered else
        var (acked, open) := AcknowledgeFIN(entered, p.ackNo);
        if !open then acked else
          var marked := ObserveECN(acked, p);
          if p.seqNo != s.buffer.next then
            Acknowledge(marked.(conn := marked.conn.(pendingFIN := true, pendingFINSeq := p.seqNo)))
          else ConsumeFIN(marked, p.seqNo)
  }

  function FinTimeout(s: State): State {
    if !s.timers.fin then s
    else if !s.phase.Open? || s.conn.finAcked then s.(timers := s.timers.(fin := false))
    else if s.conn.finTimeouts >= s.config.maxFINRetries then Finish(s, FINRetryLimit)
    else EmitFIN(s.(conn := s.conn.(finTimeouts := s.conn.finTimeouts + 1, finRetries := s.conn.finRetries + 1)))
  }

  function WaitExpired(s: State): State {
    if !s.timers.wait then s else Finish(s, if s.conn.tcp.TimeWait? then Graceful else WaitTimeout)
  }

  // ---------- Data ----------

  /** Payload accepted at most once, with its SACK report; the pending FIN bounds the stream. */
  function TakeData(s: State, p: Packet, end: nat): (State, int) {
    var bound := if s.conn.pendingFIN then Min(end, s.conn.pendingFINSeq) else end;
    var (buffer, added) := RB.AcceptBytes(s.buffer, p.seqNo, bound);
    var recent := if s.feedback.sack then SR.Report(buffer.ranges, s.feedback.recent, p.seqNo, bound) else s.feedback.recent;
    (s.(buffer := buffer, feedback := s.feedback.(recent := recent), received := s.received + added), added)
  }

  function HandleData(s: State, p: Packet, end: nat): State {
    var inWindow := RB.OverlapsWindow(s.buffer, p.seqNo, end);
    var (acked, open) := if inWindow then AcknowledgeFIN(s, p.ackNo) else (s, true);
    if !open then acked else
      var marked := if inWindow then ObserveECN(acked, p) else acked;
      var (taken, added) := TakeData(marked, p, end);
      if taken.conn.pendingFIN && taken.buffer.next == taken.conn.pendingFINSeq then ConsumeFIN(taken, taken.conn.pendingFINSeq)
      else
        var newMark := s.feedback.ecn && p.ce && (!s.feedback.echo || p.flags.cwr);
        var mayDelay := p.seqNo == s.buffer.next && s.buffer.ranges == [] && added == p.size
                        && RB.WindowBytes(s.buffer) == RB.WindowBytes(taken.buffer) && !newMark;
        AcknowledgeData(taken, mayDelay)
  }

  // ---------- One arriving packet ----------

  datatype Admission = Admission(canOpen: bool, canEstablish: bool)

  function HandlePacket(s: State, p: Packet, a: Admission): State {
    var end := SequenceEnd(p);
    if end.None? || !ValidSACKOptions(p) || (p.flags.syn && p.flags.fin) then s
    else if p.flags.rst then HandleReset(s, p)
    else if p.flags.syn then HandleSYN(s, p, end.value, a.canOpen)
    else if !s.phase.Open? || !p.flags.ack || !ValidACK(s, p.ackNo) then s
    else if p.flags.fin then HandleFIN(s, p, a.canEstablish)
    else
      var (entered, ok) := if s.conn.established then (s, true) else Enter(s, p, end.value, a.canEstablish);
      if !ok then entered else HandleSegment(entered, p, end.value)
  }

  /** Data or a pure ACK can complete the handshake when it lies at the right position. */
  function Enter(s: State, p: Packet, end: nat, canEstablish: bool): (State, bool) {
    var valid := if p.size > 0 then RB.OverlapsWindow(s.buffer, p.seqNo, end) else p.seqNo == s.buffer.next;
    if !valid then (s, false) else EstablishConnection(s, canEstablish)
  }

  function HandleSegment(s: State, p: Packet, end: nat): State {
    if p.size == 0 then
      if p.seqNo != s.buffer.next then s else
        var (acked, open) := AcknowledgeFIN(s, p.ackNo);
        if open then ObserveECN(acked, p) else acked
    else if s.conn.peerFIN then s
    else HandleData(s, p, end)
  }

  // ---------- Everything that can happen to a receiver ----------

  datatype Input =
    | DoClose
    | DoAbort
    | DoForget
    | DelayFires
    | FinTimerFires
    | WaitTimerFires
    | Arrives(packet: Packet, admission: Admission)

  function Step(s: State, i: Input): State {
    match i
    case DoClose => CloseConnection(s)
    case DoAbort => AbortConnection(s)
    case DoForget => Finish(s, Aborted)
    case DelayFires => DelayExpired(s)
    case FinTimerFires => FinTimeout(s)
    case WaitTimerFires => WaitExpired(s)
    case Arrives(p, a) => HandlePacket(s, p, a)
  }

  function Run(config: Config, inputs: seq<Input>): State
    decreases |inputs|
  {
    if inputs == [] then Init(config) else Step(Run(config, inputs[..|inputs| - 1]), inputs[|inputs| - 1])
  }
}
