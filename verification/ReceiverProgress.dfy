/** What a receiver emits of its own direction, and how one delivery of payload moves it forward or
    makes it acknowledge again: the facts that `TcpProgress` builds on. */
module ReceiverProgress {
  import opened Basics
  import opened Packets
  import opened Receiver
  import opened ReceiverSafety
  import RB = ReceiveBuffer

  // ---------- Kept by every step ----------

  /** Until the handshake ends nothing has entered the buffer. */
  ghost predicate Untouched(s: State) {
    s.phase.Open? && !s.conn.established ==> s.buffer.next == s.conn.peerInitial + 1 && s.buffer.ranges == []
  }

  ghost predicate FINEmitted(out: seq<Packet>) {
    exists k :: 0 <= k < |out| && out[k].flags.fin
  }

  ghost predicate FINKept(s: State) {
    s.conn.finSent ==> FINEmitted(s.out)
  }

  lemma FINGrows(before: seq<Packet>, after: seq<Packet>)
    requires before <= after
    ensures FINEmitted(before) ==> FINEmitted(after)
  {
    if FINEmitted(before) {
      var k :| 0 <= k < |before| && before[k].flags.fin;
      assert after[k] == before[k];
    }
  }

  /** Whatever starts our FIN emits it. */
  ghost predicate FINWithStart(s: State, t: State) {
    t.conn.finSent && !s.conn.finSent ==> FINEmitted(t.out)
  }

  lemma StartFINEmits(s: State, tcp: TCPState)
    ensures FINEmitted(StartFIN(s, tcp).out)
  {
    var t := StartFIN(s, tcp);
    assert t.out[|s.out|].flags.fin;
  }

  lemma LocalFIN(s: State, i: Input)
    requires !i.Arrives?
    ensures FINWithStart(s, Step(s, i))
  {
    StartFINEmits(s, FinWait1);
    hide StartFIN, FINEmitted;
  }

  lemma ConsumeFINEmits(s: State, sequence: nat)
    ensures FINWithStart(s, ConsumeFIN(s, sequence))
  {
    var consumed := s.(conn := s.conn.(pendingFIN := false, peerFIN := true, peerFINSeq := sequence),
                       buffer := s.buffer.(next := s.buffer.next + 1));
    StartFINEmits(consumed, LastAck);
    hide StartFIN, FINEmitted;
  }

  /** Handling that neither starts our FIN nor completes the handshake. */
  ghost predicate OwnSame(s: State, t: State) {
    t.conn.finSent == s.conn.finSent && t.conn.established == s.conn.established && t.conn.next == s.conn.next
  }

  lemma OwnSameOps(s: State, p: Packet, end: nat, mayDelay: bool)
    ensures OwnSame(s, AcknowledgeFIN(s, p.ackNo).0) && OwnSame(s, ObserveECN(s, p)) && OwnSame(s, TakeData(s, p, end).0)
    ensures OwnSame(s, AcknowledgeData(s, mayDelay)) && OwnSame(s, Acknowledge(s)) && OwnSame(s, HandleReset(s, p))
  {
  }

  lemma RepeatedFINOwn(s: State, p: Packet)
    ensures OwnSame(s, RepeatedFIN(s, p))
  {
    hide AcknowledgeFIN, ObserveECN, AnswerRepeatedFIN;
    OwnSameOps(s, p, 0, false);
    var acked := AcknowledgeFIN(s, p.ackNo).0;
    OwnSameOps(acked, p, 0, false);
    AnswerOwn(ObserveECN(acked, p));
  }

  lemma AnswerOwn(s: State)
    ensures OwnSame(s, AnswerRepeatedFIN(s))
  {
  }

  lemma HandleFINEmits(s: State, p: Packet, canEstablish: bool)
    ensures FINWithStart(s, HandleFIN(s, p, canEstablish))
  {
    hide AcknowledgeFIN, ObserveECN, ConsumeFIN, Acknowledge, RepeatedFIN, FINEmitted, FINFits;
    RepeatedFINOwn(s, p);
    var entered := if s.conn.established then s else EstablishConnection(s, canEstablish).0;
    OwnSameOps(entered, p, 0, false);
    var acked := AcknowledgeFIN(entered, p.ackNo).0;
    OwnSameOps(acked, p, 0, false);
    var marked := ObserveECN(acked, p);
    OwnSameOps(marked.(conn := marked.conn.(pendingFIN := true, pendingFINSeq := p.seqNo)), p, 0, false);
    ConsumeFINEmits(marked, p.seqNo);
  }

  lemma HandleDataEmits(s: State, p: Packet, end: nat)
    ensures FINWithStart(s, HandleData(s, p, end))
  {
    hide AcknowledgeFIN, ObserveECN, TakeData, ConsumeFIN, AcknowledgeData, FINEmitted;
    OwnSameOps(s, p, end, false);
    var acked := if RB.OverlapsWindow(s.buffer, p.seqNo, end) then AcknowledgeFIN(s, p.ackNo).0 else s;
    OwnSameOps(acked, p, end, false);
    var marked := if RB.OverlapsWindow(s.buffer, p.seqNo, end) then ObserveECN(acked, p) else acked;
    OwnSameOps(marked, p, end, false);
    var taken := TakeData(marked, p, end).0;
    OwnSameOps(taken, p, end, false);
    OwnSameOps(taken, p, end, true);
    ConsumeFINEmits(taken, taken.conn.pendingFINSeq);
  }

  lemma HandleSegmentEmits(s: State, p: Packet, end: nat)
    ensures FINWithStart(s, HandleSegment(s, p, end))
  {
    hide AcknowledgeFIN, ObserveECN, HandleData, FINEmitted;
    OwnSameOps(s, p, end, false);
    OwnSameOps(AcknowledgeFIN(s, p.ackNo).0, p, end, false);
    HandleDataEmits(s, p, end);
  }

  lemma HandlePacketEmits(s: State, p: Packet, a: Admission)
    ensures FINWithStart(s, HandlePacket(s, p, a))
  {
    hide HandleReset, HandleFIN, HandleSegment, ValidSACKOptions, FINEmitted;
    OwnSameOps(s, p, 0, false);
    HandleFINEmits(s, p, a.canEstablish);
    if SequenceEnd(p).Some? {
      var end := SequenceEnd(p).value;
      HandleSegmentEmits(s, p, end);
      HandleSegmentEmits(EstablishConnection(s, a.canEstablish).0, p, end);
    }
  }

  lemma FINStep(s: State, i: Input)
    requires Inv(s) && FINKept(s)
    ensures FINKept(Step(s, i))
  {
    hide Inv, HandlePacket, FINEmitted;
    StepKeeps(s, i);
    FINGrows(s.out, Step(s, i).out);
    match i
    case Arrives(p, a) => HandlePacketEmits(s, p, a);
    case _ => LocalFIN(s, i);
  }

  lemma ConsumeEstablished(s: State, sequence: nat)
    ensures ConsumeFIN(s, sequence).conn.established == s.conn.established
  {
  }

  lemma HandleFINEstablished(s: State, p: Packet, canEstablish: bool)
    requires s.conn.established || (!s.conn.peerFIN && s.phase.Open?)
    ensures var t := HandleFIN(s, p, canEstablish); t == s || t.conn.established || (!s.conn.established && !t.phase.Open?)
  {
    hide AcknowledgeFIN, ObserveECN, ConsumeFIN, Acknowledge, RepeatedFIN, FINFits;
    RepeatedFINOwn(s, p);
    var entered := if s.conn.established then s else EstablishConnection(s, canEstablish).0;
    OwnSameOps(entered, p, 0, false);
    var acked := AcknowledgeFIN(entered, p.ackNo).0;
    OwnSameOps(acked, p, 0, false);
    var marked := ObserveECN(acked, p);
    OwnSameOps(marked, p, 0, false);
    OwnSameOps(marked.(conn := marked.conn.(pendingFIN := true, pendingFINSeq := p.seqNo)), p, 0, false);
    ConsumeEstablished(marked, p.seqNo);
  }

  lemma HandleSegmentEstablished(s: State, p: Packet, end: nat)
    requires s.conn.established
    ensures HandleSegment(s, p, end).conn.established
  {
    hide AcknowledgeFIN, ObserveECN, TakeData, ConsumeFIN, AcknowledgeData;
    OwnSameOps(s, p, end, false);
    var acked := AcknowledgeFIN(s, p.ackNo).0;
    OwnSameOps(acked, p, end, false);
    var first := if RB.OverlapsWindow(s.buffer, p.seqNo, end) then ObserveECN(acked, p) else s;
    OwnSameOps(first, p, end, false);
    var taken := TakeData(first, p, end).0;
    OwnSameOps(taken, p, end, false);
    OwnSameOps(taken, p, end, true);
    ConsumeEstablished(taken, taken.conn.pendingFINSeq);
  }

  /** The handshake ends with an acknowledgement from the peer, and only then is anything taken. */
  lemma EntersByACK(s: State, p: Packet, a: Admission)
    requires Inv(s) && Untouched(s)
    ensures var t := HandlePacket(s, p, a);
      && Untouched(t)
      && (t.conn.established && !s.conn.established ==> p.flags.ack && !p.flags.syn && !p.flags.rst)
  {
    hide Inv, HandleFIN, HandleSegment, ValidSACKOptions;
    if s.phase.Open? {
      NoPeerFIN(s);
      HandleFINEstablished(s, p, a.canEstablish);
    }
    if SequenceEnd(p).Some? {
      var end := SequenceEnd(p).value;
      if s.conn.established {
        HandleSegmentEstablished(s, p, end);
      }
      HandleSegmentEstablished(EstablishConnection(s, true).0, p, end);
      if p.flags.syn && !p.flags.fin && p.size == 0 {
        SlotUntouched(s, p, end);
      }
    }
  }

  lemma SlotUntouched(s: State, p: Packet, end: nat)
    requires Inv(s) && SequenceEnd(p) == Some(end) && p.flags.syn && !p.flags.fin && p.size == 0
    ensures s.phase.Listening? ==> !s.conn.established && end == p.seqNo + 1
  {
    hide AllHonest, ReportCurrent, CountsAgree, StreamInv, Armed;
  }

  lemma NoPeerFIN(s: State)
    requires Inv(s)
    ensures !s.conn.established ==> !s.conn.peerFIN
  {
    hide AllHonest, ReportCurrent, CountsAgree, Armed, RB.Valid;
  }

  lemma UntouchedStep(s: State, i: Input)
    requires Inv(s) && Untouched(s)
    ensures Untouched(Step(s, i)) && (!i.Arrives? ==> Step(s, i).conn.established == s.conn.established)
  {
    hide HandlePacket;
    match i
    case Arrives(p, a) => EntersByACK(s, p, a);
    case _ => LocalUntouched(s, i);
  }

  lemma LocalUntouched(s: State, i: Input)
    requires Inv(s) && Untouched(s) && !i.Arrives?
    ensures Untouched(Step(s, i)) && Step(s, i).conn.established == s.conn.established
  {
    hide Inv;
  }

  // ---------- What a chosen delivery achieves ----------

  const WILLING := Admission(true, true)

  /** The peer's SYN opens the connection or is answered again. */
  lemma SYNEffect(s: State, p: Packet)
    requires Inv(s) && !s.phase.Released? && (s.phase.Open? ==> s.conn.peerInitial == 0 && !s.conn.finSent)
    requires p.flags.syn && !p.flags.ack && !p.flags.fin && !p.flags.rst && p.size == 0 && p.seqNo == 0 && ValidSACKOptions(p)
    ensures var t := Step(s, Arrives(p, WILLING));
      t.phase.Open? && s.out <= t.out && |t.out| == |s.out| + 1 && t.out[|s.out|].flags.syn
  {
    hide AllHonest, ReportCurrent, CountsAgree, StreamInv, Armed;
  }

  /** A data packet of the peer's stream that this connection can take. */
  ghost predicate Takes(s: State, p: Packet, end: nat) {
    && s.phase.Open? && !s.conn.peerFIN && !s.conn.pendingFIN && RB.WindowBytes(s.buffer) >= 1
    && p.flags.ack && !p.flags.syn && !p.flags.fin && !p.flags.rst && p.size > 0 && ValidSACKOptions(p)
    && SequenceEnd(p) == Some(end) && ValidACK(s, p.ackNo)
  }

  /** A plain acknowledgement of everything held. */
  predicate Confirms(t: State, q: Packet) {
    && q.flags.ack && !q.flags.syn && !q.flags.fin && !q.flags.rst && q.size == 0
    && q.seqNo == t.conn.next && q.ackNo == t.buffer.next
  }

  /** Our own direction is as it was, and nothing received was lost. */
  ghost predicate Listens(s: State, t: State) {
    t.phase.Open? && t.conn.finSent == s.conn.finSent && t.conn.next == s.conn.next && s.buffer.next <= t.buffer.next
  }

  /** One more packet was emitted, an acknowledgement of everything held. */
  ghost predicate Answers(s: State, t: State) {
    s.out <= t.out && |t.out| == |s.out| + 1 && Confirms(t, t.out[|s.out|])
  }

  /** The acknowledgement of what was just taken waits for its deadline. */
  predicate Delays(t: State) {
    t.feedback.waitingSegments > 0
  }

  /** Payload that covers the next expected position is taken, and answered at once or after a
      delay; payload that begins below it is answered at once. */
  lemma DataEffect(s: State, p: Packet, end: nat)
    requires Inv(s) && Untouched(s) && Takes(s, p, end) && p.seqNo <= s.buffer.next
    requires s.conn.established || end > s.buffer.next
    ensures var t := Step(s, Arrives(p, WILLING));
      && Listens(s, t)
      && (s.buffer.next < end ==> s.buffer.next < t.buffer.next)
      && (Answers(s, t) || (Delays(t) && (p.seqNo < s.buffer.next ==> !s.conn.established)))
  {
    hide Inv, HandleData, ValidSACKOptions, Confirms;
    var entered := if s.conn.established then s else EstablishConnection(s, true).0;
    if !s.conn.established {
      EstablishKeeps(s, true);
      OverlapsFirst(s, p, end);
    }
    SegmentTaken(entered, p, end);
  }

  /** After the host closed its side every data packet is answered at once. */
  lemma PokeEffect(s: State, p: Packet, end: nat)
    requires Inv(s) && Takes(s, p, end) && s.conn.finSent
    ensures var t := Step(s, Arrives(p, WILLING)); Listens(s, t) && Answers(s, t)
  {
    hide HandleData, ValidSACKOptions, Answers, StreamInv, AllHonest, ReportCurrent, Armed;
    SegmentTaken(s, p, end);
  }

  lemma OverlapsFirst(s: State, p: Packet, end: nat)
    requires Untouched(s) && !s.conn.established && Takes(s, p, end) && p.seqNo <= s.buffer.next < end
    ensures RB.OverlapsWindow(s.buffer, p.seqNo, end)
  {
  }

  lemma SegmentTaken(s: State, p: Packet, end: nat)
    requires Inv(s) && Takes(s, p, end) && s.conn.established
    ensures var t := HandleData(s, p, end);
      && Listens(s, t)
      && (p.seqNo <= s.buffer.next < end ==> s.buffer.next < t.buffer.next)
      && (Answers(s, t) || (Delays(t) && p.seqNo >= s.buffer.next && !s.conn.finSent))
  {
    hide Inv, AcknowledgeFIN, ObserveECN, TakeData, AcknowledgeData, ValidSACKOptions, Confirms;
    NoLastAck(s, p.ackNo);
    AcknowledgeFINKeeps(s, p.ackNo);
    OwnSameOps(s, p, end, false);
    var inWindow := RB.OverlapsWindow(s.buffer, p.seqNo, end);
    var acked := if inWindow then AcknowledgeFIN(s, p.ackNo).0 else s;
    ObserveECNKeeps(acked, p);
    OwnSameOps(acked, p, end, false);
    var marked := if inWindow then ObserveECN(acked, p) else acked;
    SilentFrame(s, p);
    SilentFrame(acked, p);
    PayloadTaken(marked, p, end);
    OwnSameOps(marked, p, end, false);
    var taken := TakeData(marked, p, end).0;
    ClosingState(marked);
    Answered(taken, true);
    Answered(taken, false);
  }

  lemma ClosingState(s: State)
    requires Inv(s)
    ensures s.conn.finSent ==> !s.conn.tcp.Established?
  {
    hide AllHonest, ReportCurrent, CountsAgree, StreamInv, Armed;
  }

  lemma SilentFrame(s: State, p: Packet)
    ensures AcknowledgeFIN(s, p.ackNo).0.out == s.out && ObserveECN(s, p).out == s.out
  {
  }

  lemma PayloadTaken(s: State, p: Packet, end: nat)
    requires Inv(s) && !s.conn.pendingFIN && RB.WindowBytes(s.buffer) >= 1
    ensures var t := TakeData(s, p, end).0;
      && t.phase == s.phase && t.conn == s.conn && t.out == s.out && s.buffer.next <= t.buffer.next
      && (p.seqNo <= s.buffer.next < end ==> s.buffer.next < t.buffer.next)
  {
    hide Inv, RB.AcceptBytes, RB.Valid;
    BufferIsValid(s);
    AcceptAdvances(s.buffer, p.seqNo, end);
  }

  /** Payload that covers the next expected position moves it, unless the window is closed. */
  lemma AcceptAdvances(b: RB.View, start: nat, end: nat)
    requires RB.Valid(b)
    ensures var next := RB.AcceptBytes(b, start, end).0.next;
      b.next <= next && (RB.WindowBytes(b) >= 1 && start <= b.next < end ==> b.next < next)
  {
    hide RB.AcceptBytes, RB.Valid, RB.Positions;
    RB.AcceptRefinesSet(b, start, end);
    RB.AcceptKeepsValid(b, start, end);
    RB.NextIsLeastMissing(RB.AcceptBytes(b, start, end).0);
    if RB.WindowBytes(b) >= 1 && start <= b.next < end {
      assert b.next in RB.Span(start, end) * RB.Span(b.next, RB.RightEdge(b));
    }
  }

  lemma BufferIsValid(s: State)
    requires Inv(s)
    ensures RB.Valid(s.buffer)
  {
    hide AllHonest;
  }

  lemma Answered(s: State, mayDelay: bool)
    requires s.phase.Open?
    ensures var t := AcknowledgeData(s, mayDelay);
      && t.phase.Open? && t.conn == s.conn && t.buffer == s.buffer
      && (Answers(s, t) || (Delays(t) && mayDelay && s.conn.tcp.Established?))
  {
  }

  /** The deadline of a delayed acknowledgement. */
  lemma DelayEffect(s: State)
    requires Inv(s) && s.phase.Open? && Delays(s)
    ensures var t := Step(s, DelayFires); Listens(s, t) && Answers(s, t)
  {
    hide AllHonest, ReportCurrent, CountsAgree, StreamInv, ClosingAgrees;
  }

  /** A FIN of ours that reports everything held. */
  predicate Announces(t: State, q: Packet) {
    q.flags.fin && q.seqNo == t.conn.finSeq && q.ackNo == t.buffer.next
  }

  /** Our FIN has been emitted once more. */
  ghost predicate SaysFIN(s: State, t: State) {
    && t.phase.Open? && t.conn.finSent && t.buffer == s.buffer
    && s.out <= t.out && |t.out| == |s.out| + 1 && Announces(t, t.out[|s.out|])
  }

  /** The FIN timer repeats our FIN while tries are left; the host may start it when it has none. */
  lemma FINEffects(s: State)
    requires Inv(s) && s.phase.Open?
    ensures s.conn.finSent && !s.conn.finAcked && s.conn.finTimeouts < s.config.maxFINRetries ==> SaysFIN(s, Step(s, FinTimerFires))
    ensures s.conn.established && !s.conn.finSent ==> SaysFIN(s, Step(s, DoClose))
  {
    hide AllHonest, ReportCurrent, CountsAgree, StreamInv;
  }
}
