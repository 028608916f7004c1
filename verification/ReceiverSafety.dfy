/** What every run of a receiver keeps, whatever packets arrive: the reassembly buffer and
    its byte count, agreement of the TCP state with the closing flags, the end of the
    stream at the FIN, and truthful acknowledgements. */
module ReceiverSafety {
  import opened Basics
  import opened Packets
  import opened Receiver
  import RB = ReceiveBuffer
  import SR = SackReport

  // ---------- The stream ----------

  /** Bytes are counted once, and nothing at or past a FIN is held. */
  ghost predicate StreamInv(phase: Phase, conn: Connection, buffer: RB.View, received: int) {
    && RB.Valid(buffer)
    && (if phase.Listening? then buffer.next == 0 && buffer.ranges == [] && received == 0
        else received == buffer.next - (conn.peerInitial + 1) - (if conn.peerFIN then 1 else 0) + buffer.buffered
             && conn.peerInitial < buffer.next)
    && (conn.peerFIN ==>
          conn.established && !conn.pendingFIN && buffer.ranges == [] && buffer.next == conn.peerFINSeq + 1)
    && (conn.pendingFIN ==>
          conn.established && buffer.next <= conn.pendingFINSeq < MAX_UINT64
          && RB.EndsBy(buffer.ranges, conn.pendingFINSeq))
  }

  // ---------- The TCP state against the closing flags ----------

  ghost predicate ClosingAgrees(phase: Phase, conn: Connection) {
    && (conn.finAcked ==> conn.finSent)
    && (conn.finSent ==> conn.finSeq == 1 && conn.established)
    && (phase.Listening? ==> conn == Init0())
    && (!phase.Listening? ==> conn.next == (if conn.finSent then 2 else 1))
    && (phase.Released? <==> !conn.outcome.NoOutcome?)
    && (conn.outcome.Graceful? ==> conn.finSent && conn.finAcked && conn.peerFIN)
    && match phase
       case Listening => true
       case Released => conn.tcp.Closed?
       case Open =>
         if !conn.established then conn.tcp.SynReceived? && !conn.peerFIN && !conn.finSent
         else if !conn.finSent then conn.tcp.Established? && !conn.peerFIN
         else if conn.finAcked then conn.tcp == (if conn.peerFIN then TimeWait else FinWait2)
         else if conn.peerFIN then conn.tcp.LastAck? || conn.tcp.Closing?
         else conn.tcp.FinWait1?
  }

  function Init0(): Connection {
    Connection(false, Closed, NoOutcome, 0, 0, false, false, 0, 0, 0, false, 0, false, 0)
  }

  // ---------- Feedback and counts ----------

  ghost predicate ReportCurrent(buffer: RB.View, feedback: Feedback) {
    if feedback.sack
    then SR.Complete(feedback.recent, buffer.ranges)
         && forall b :: b in feedback.recent ==> buffer.next < b.start < b.end
    else feedback.recent == []
  }

  ghost predicate CountsAgree(phase: Phase, conn: Connection, active: int, halfOpen: int) {
    && active == (if phase.Open? && conn.established then 1 else 0)
    && halfOpen == (if phase.Open? && !conn.established then 1 else 0)
  }

  /** A timer runs exactly for a delayed ACK, an unconfirmed FIN, and the two last waits. */
  ghost predicate Armed(phase: Phase, conn: Connection, feedback: Feedback, timers: Timers) {
    && (!phase.Open? ==> timers == NO_TIMERS)
    && (timers.ack <==> feedback.waitingSegments > 0)
    && (phase.Open? ==> (timers.fin <==> conn.finSent && !conn.finAcked))
    && (phase.Open? ==> (timers.wait <==> conn.tcp.FinWait2? || conn.tcp.TimeWait?))
  }

  // ---------- Emitted packets ----------

  /** What a packet emitted by a receiver in state `t`, or in an earlier one, can say. */
  ghost predicate Honest(conn: Connection, phase: Phase, buffer: RB.View, p: Packet) {
    && p.size == 0 && ValidSACKOptions(p) && p.flags.ack && !p.flags.psh && !phase.Listening?
    && conn.peerInitial + 1 <= p.ackNo <= buffer.next
    && p.ackNo + p.window <= RB.RightEdge(buffer)
    && SR.Distinct(p.sackBlocks)
    && (forall b :: b in p.sackBlocks ==> p.ackNo < b.start < b.end)
    && if p.flags.syn then p.seqNo == 0 && p.ackNo == conn.peerInitial + 1 && !p.flags.fin && !p.flags.rst
       else if p.flags.rst then phase.Released? && !p.flags.fin
       else 1 <= p.seqNo <= conn.next && (p.flags.fin ==> conn.finSent && p.seqNo == conn.finSeq)
  }

  ghost predicate AllHonest(s: State) {
    forall k :: 0 <= k < |s.out| ==> Honest(s.conn, s.phase, s.buffer, s.out[k])
  }

  ghost predicate Inv(s: State) {
    && ValidConfig(s.config) && s.buffer.capacity == s.config.capacity
    && StreamInv(s.phase, s.conn, s.buffer, s.received)
    && ClosingAgrees(s.phase, s.conn)
    && ReportCurrent(s.buffer, s.feedback)
    && CountsAgree(s.phase, s.conn, s.active, s.halfOpen)
    && Armed(s.phase, s.conn, s.feedback, s.timers)
    && AllHonest(s)
  }

  // ---------- Progress ----------

  /** `t` is a later state: nothing learnt is forgotten and no edge moves back. */
  ghost predicate Later(s: State, t: State) {
    && t.config == s.config
    && (!s.phase.Listening? ==> !t.phase.Listening? && t.conn.peerInitial == s.conn.peerInitial)
    && (s.phase.Released? ==> t.phase.Released?)
    && s.buffer.next <= t.buffer.next && RB.RightEdge(s.buffer) <= RB.RightEdge(t.buffer)
    && (s.conn.finSent ==> t.conn.finSent && t.conn.finSeq == s.conn.finSeq)
    && s.conn.next <= t.conn.next
    && (s.conn.finAcked ==> t.conn.finAcked)
    && (s.conn.peerFIN ==> t.conn.peerFIN && t.conn.peerFINSeq == s.conn.peerFINSeq)
    && s.out <= t.out
  }

  lemma HonestLater(s: State, t: State, p: Packet)
    requires Later(s, t) && Honest(s.conn, s.phase, s.buffer, p)
    ensures Honest(t.conn, t.phase, t.buffer, p)
  {
  }

  /** Changes that emit nothing keep every emitted packet honest. */
  lemma SilentHonest(s: State, t: State)
    requires Later(s, t) && t.out == s.out && AllHonest(s)
    ensures AllHonest(t)
  {
    forall k | 0 <= k < |t.out| ensures Honest(t.conn, t.phase, t.buffer, t.out[k]) {
      HonestLater(s, t, s.out[k]);
    }
  }

  lemma EmitHonest(s: State, p: Packet)
    requires Inv(s) && Honest(s.conn, s.phase, s.buffer, p)
    ensures Inv(Emit(s, p)) && Later(s, Emit(s, p))
  {
    hide StreamInv, ClosingAgrees, ReportCurrent, CountsAgree, Honest;
  }

  lemma LaterTwice(s: State, t: State, u: State)
    requires Later(s, t) && Later(t, u)
    ensures Later(s, u)
  {
  }

  // ---------- Replies ----------

  lemma ReplyHonest(s: State, flags: Flags, seqNo: nat)
    requires Inv(s) && !s.phase.Listening?
    requires if flags.fin then flags == FIN_FLAGS && s.conn.finSent && seqNo == s.conn.finSeq
             else flags == ACK_FLAGS && seqNo == s.conn.next
    ensures Honest(s.conn, s.phase, s.buffer, Reply(s, flags, seqNo))
  {
    hide AllHonest, CountsAgree;
    var p := Reply(s, flags, seqNo);
    if s.feedback.sack {
      assert forall b :: b in p.sackBlocks ==> b.start < b.end;
    }
  }

  lemma AcknowledgeKeeps(s: State)
    requires Inv(s)
    ensures Inv(Acknowledge(s)) && Later(s, Acknowledge(s))
  {
    if s.phase.Open? {
      ReplyHonest(s, ACK_FLAGS, s.conn.next);
      hide Inv, Honest;
      CancelKeeps(s);
      var p := Reply(s, ACK_FLAGS, s.conn.next);
      EmitHonest(CancelDelay(s), p);
      LaterTwice(s, CancelDelay(s), Acknowledge(s));
    }
  }

  lemma CancelKeeps(s: State)
    requires Inv(s)
    ensures Inv(CancelDelay(s)) && Later(s, CancelDelay(s))
  {
    hide StreamInv, ClosingAgrees, CountsAgree, Honest;
  }

  lemma EmitFINKeeps(s: State)
    requires Inv(s) && s.phase.Open? && s.conn.finSent
    ensures Inv(EmitFIN(s)) && Later(s, EmitFIN(s))
    ensures var q := Reply(s, FIN_FLAGS, s.conn.finSeq);
      && EmitFIN(s).out == s.out + [q] && q.flags.fin && q.seqNo == s.conn.finSeq && q.ackNo == s.buffer.next
      && q.window == RB.WindowBytes(s.buffer) && q.sackBlocks == s.feedback.recent
  {
    ReplyHonest(s, FIN_FLAGS, s.conn.finSeq);
    hide Inv, Honest;
    CancelKeeps(s);
    EmitHonest(CancelDelay(s), Reply(s, FIN_FLAGS, s.conn.finSeq));
    LaterTwice(s, CancelDelay(s), EmitFIN(s));
  }

  lemma FinishKeeps(s: State, outcome: CloseOutcome)
    requires Inv(s) && !outcome.NoOutcome?
    requires outcome.Graceful? ==> s.conn.finSent && s.conn.finAcked && s.conn.peerFIN
    ensures Inv(Finish(s, outcome)) && Later(s, Finish(s, outcome))
  {
    hide RB.Valid, RB.EndsBy, AllHonest;
    SilentHonest(s, Finish(s, outcome));
  }

  /** One more segment waits, under the deadline of the first. */
  lemma WaitingKeeps(s: State)
    requires Inv(s) && s.phase.Open?
    ensures var waiting := s.(feedback := s.feedback.(waitingSegments := s.feedback.waitingSegments + 1));
      && Acknowledge(waiting) == Acknowledge(s)
      && Inv(waiting.(timers := s.timers.(ack := true)))
      && Later(s, waiting.(timers := s.timers.(ack := true)))
      && (waiting.feedback.waitingSegments != 1 ==> s.timers.ack)
  {
    hide StreamInv, ClosingAgrees, CountsAgree, Honest;
  }

  lemma AcknowledgeDataKeeps(s: State, mayDelay: bool)
    requires Inv(s)
    ensures Inv(AcknowledgeData(s, mayDelay)) && Later(s, AcknowledgeData(s, mayDelay))
  {
    hide Inv, Acknowledge;
    AcknowledgeKeeps(s);
    if s.conn.tcp.Established? {
      EstablishedOpen(s);
      WaitingKeeps(s);
    }
  }

  lemma EstablishedOpen(s: State)
    requires Inv(s) && s.conn.tcp.Established?
    ensures s.phase.Open?
  {
    hide AllHonest, StreamInv;
  }

  // ---------- Opening ----------

  lemma HandleSYNKeeps(s: State, p: Packet, end: nat, canOpen: bool)
    requires Inv(s) && p.flags.syn && !p.flags.fin && SequenceEnd(p) == Some(end)
    ensures Inv(HandleSYN(s, p, end, canOpen)) && Later(s, HandleSYN(s, p, end, canOpen))
  {
    if !(p.size != 0 || p.flags.ack || s.phase.Released? || (s.phase.Listening? && !canOpen)) {
      var slot := if s.phase.Listening? then OpenSlot(s, p, end) else s;
      if s.phase.Listening? {
        OpenSlotKeeps(s, p, end);
      }
      if p.seqNo == slot.conn.peerInitial && !slot.conn.finSent {
        SynAckHonest(slot);
        hide Inv, Honest;
        EmitHonest(slot, SynAck(slot));
      }
    }
  }

  lemma OpenSlotKeeps(s: State, p: Packet, end: nat)
    requires Inv(s) && s.phase.Listening? && p.size == 0 && p.flags.syn && !p.flags.fin && SequenceEnd(p) == Some(end)
    ensures Inv(OpenSlot(s, p, end)) && Later(s, OpenSlot(s, p, end))
  {
    hide Honest;
    var slot := OpenSlot(s, p, end);
    assert AllHonest(slot) by {
      ListeningSilent(s);
    }
    assert RB.Valid(slot.buffer);
  }

  lemma ListeningSilent(s: State)
    requires Inv(s) && s.phase.Listening?
    ensures s.out == []
  {
    assert |s.out| > 0 ==> Honest(s.conn, s.phase, s.buffer, s.out[0]);
  }

  lemma SynAckHonest(s: State)
    requires Inv(s) && s.phase.Open?
    ensures Honest(s.conn, s.phase, s.buffer, SynAck(s))
  {
    hide AllHonest;
  }

  lemma EstablishKeeps(s: State, canEstablish: bool)
    requires Inv(s) && s.phase.Open? && !s.conn.established
    ensures var (t, ok) := EstablishConnection(s, canEstablish);
      && Inv(t) && Later(s, t)
      && (ok ==> t.phase.Open? && t.conn.established && t.buffer == s.buffer
                 && t.conn.pendingFIN == s.conn.pendingFIN && t.conn.peerFIN == s.conn.peerFIN)
  {
    hide RB.Valid, RB.EndsBy, AllHonest, Finish;
    FinishKeeps(s, Aborted);
    SilentHonest(s, EstablishConnection(s, true).0);
  }

  lemma ObserveECNKeeps(s: State, p: Packet)
    requires Inv(s)
    ensures Inv(ObserveECN(s, p)) && Later(s, ObserveECN(s, p))
    ensures var t := ObserveECN(s, p); t.phase == s.phase && t.conn == s.conn && t.buffer == s.buffer
  {
    hide StreamInv, ClosingAgrees, CountsAgree, Honest;
  }

  // ---------- Closing ----------

  lemma HandleResetKeeps(s: State, p: Packet)
    requires Inv(s)
    ensures Inv(HandleReset(s, p)) && Later(s, HandleReset(s, p))
  {
    hide Inv, Finish;
    FinishKeeps(s, Reset);
  }

  lemma CloseKeeps(s: State)
    requires Inv(s)
    ensures Inv(CloseConnection(s)) && Later(s, CloseConnection(s))
  {
    if s.phase.Open? && s.conn.established && s.conn.tcp.Established? {
      var base := s.(conn := s.conn.(tcp := FinWait1, finSent := true, finSeq := s.conn.next, next := s.conn.next + 1),
                      timers := s.timers.(fin := true));
      BaseKeeps(s, base);
      hide Inv;
      EmitFINKeeps(base);
      LaterTwice(s, base, EmitFIN(base));
    }
  }

  /** Our FIN starts while the peer's direction is unchanged. */
  lemma BaseKeeps(s: State, base: State)
    requires Inv(s) && s.phase.Open? && s.conn.established && s.conn.tcp.Established?
    requires base == s.(conn := s.conn.(tcp := FinWait1, finSent := true, finSeq := s.conn.next, next := s.conn.next + 1),
                           timers := s.timers.(fin := true))
    ensures Inv(base) && Later(s, base)
  {
    hide RB.Valid, RB.EndsBy, AllHonest;
    SilentHonest(s, base);
  }

  lemma AbortKeeps(s: State)
    requires Inv(s)
    ensures Inv(AbortConnection(s)) && Later(s, AbortConnection(s))
  {
    if s.phase.Open? {
      FinishKeeps(s, Aborted);
      var done := Finish(s, Aborted);
      var p := Segment(ACK_FLAGS.(rst := true), 0, s.conn.next, s.buffer.next);
      assert Honest(done.conn, done.phase, done.buffer, p) by {
        hide AllHonest;
      }
      hide Inv, Honest, Finish;
      EmitHonest(done, p);
      LaterTwice(s, done, Emit(done, p));
    }
  }

  lemma AcknowledgeFINKeeps(s: State, ack: nat)
    requires Inv(s) && s.phase.Open?
    ensures var (t, open) := AcknowledgeFIN(s, ack);
      && Inv(t) && Later(s, t) && t.buffer == s.buffer && (open ==> t.phase.Open?)
      && t.conn.peerFIN == s.conn.peerFIN && t.conn.pendingFIN == s.conn.pendingFIN
      && t.conn.pendingFINSeq == s.conn.pendingFINSeq && t.conn.established == s.conn.established
  {
    hide RB.Valid, RB.EndsBy, AllHonest;
    SilentHonest(s, AcknowledgeFIN(s, ack).0);
  }

  /** The state after the FIN took its position, before the reply. */
  function AfterFIN(s: State, sequence: nat): State {
    var starts := s.conn.tcp.Established?;
    s.(conn := s.conn.(
         pendingFIN := false, peerFIN := true, peerFINSeq := sequence,
         tcp := if starts then LastAck else if s.conn.tcp.FinWait1? then Closing else TimeWait,
         finSent := s.conn.finSent || starts,
         finSeq := if starts then s.conn.next else s.conn.finSeq,
         next := if starts then s.conn.next + 1 else s.conn.next),
       feedback := if s.conn.tcp.FinWait2? then s.feedback.(waitingSegments := 0) else s.feedback,
       timers := if starts then s.timers.(fin := true) else if s.conn.tcp.FinWait2? then Timers(false, false, true) else s.timers,
       buffer := s.buffer.(next := s.buffer.next + 1))
  }

  lemma AfterFINKeeps(s: State, sequence: nat)
    requires Inv(s) && s.phase.Open? && s.conn.established && !s.conn.peerFIN
    requires sequence == s.buffer.next < MAX_UINT64 && RB.EndsBy(s.buffer.ranges, sequence)
    ensures Inv(AfterFIN(s, sequence)) && Later(s, AfterFIN(s, sequence))
  {
    hide AllHonest;
    RB.SeparatedMembers(s.buffer.next, s.buffer.ranges);
    RB.EndsByIndex(s.buffer.ranges, sequence);
    SilentHonest(s, AfterFIN(s, sequence));
  }

  /** The peer's FIN takes its position exactly when every byte before it has arrived. */
  lemma ConsumeKeeps(s: State, sequence: nat)
    requires Inv(s) && s.phase.Open? && s.conn.established && !s.conn.peerFIN
    requires sequence == s.buffer.next < MAX_UINT64 && RB.EndsBy(s.buffer.ranges, sequence)
    ensures Inv(ConsumeFIN(s, sequence)) && Later(s, ConsumeFIN(s, sequence))
  {
    var base := AfterFIN(s, sequence);
    AfterFINKeeps(s, sequence);
    assert ConsumeFIN(s, sequence) == if s.conn.tcp.Established? then EmitFIN(base) else Acknowledge(base) by {
      OpenStates(s);
      hide Inv, EmitFIN, Acknowledge;
    }
    assert base.phase.Open? && (s.conn.tcp.Established? ==> base.conn.finSent);
    hide *;
    if s.conn.tcp.Established? {
      EmitFINKeeps(base);
      LaterTwice(s, base, EmitFIN(base));
    } else {
      AcknowledgeKeeps(base);
      LaterTwice(s, base, Acknowledge(base));
    }
  }

  /** Taking the FIN moves one position, once and for good; the state follows from whether our own
      FIN was sent and confirmed, and one packet acknowledges it, itself a FIN when ours starts. */
  lemma ConsumeEffect(s: State, sequence: nat)
    requires Inv(s) && s.phase.Open? && s.conn.established && !s.conn.peerFIN
    requires sequence == s.buffer.next < MAX_UINT64 && RB.EndsBy(s.buffer.ranges, sequence)
    ensures var t := ConsumeFIN(s, sequence);
      && t.buffer == s.buffer.(next := sequence + 1) && t.buffer.ranges == [] && t.received == s.received
      && t.conn.peerFIN && t.conn.peerFINSeq == sequence && !t.conn.pendingFIN
      && t.conn.tcp == (if !s.conn.finSent then LastAck else if s.conn.finAcked then TimeWait else Closing)
      && |t.out| == |s.out| + 1 && s.out <= t.out
      && t.out[|s.out|].ackNo == sequence + 1 && (t.out[|s.out|].flags.fin <==> !s.conn.finSent)
  {
    hide AllHonest, ReportCurrent, CountsAgree;
    RB.SeparatedMembers(s.buffer.next, s.buffer.ranges);
    RB.EndsByIndex(s.buffer.ranges, sequence);
  }

  /** The FIN is a new one, fits the stream received so far, and the connection may take it. */
  predicate TakesFIN(s: State, p: Packet, canEstablish: bool) {
    && p.size == 0 && !p.flags.psh && !s.conn.peerFIN && (s.conn.established || canEstablish)
    && s.buffer.next <= p.seqNo < RB.RightEdge(s.buffer)
    && (s.conn.pendingFIN ==> p.seqNo == s.conn.pendingFINSeq)
    && forall r :: r in s.buffer.ranges ==> r.end <= p.seqNo
  }

  /** A FIN is consumed exactly at the next expected position and otherwise remembered until the
      gap before it is filled; one that was consumed before changes no position again. */
  lemma HandleFINEffect(s: State, p: Packet, canEstablish: bool)
    requires Inv(s) && s.phase.Open? && p.flags.fin && !p.flags.syn && SequenceEnd(p).Some?
    ensures var t := HandleFIN(s, p, canEstablish); var takes := TakesFIN(s, p, canEstablish);
      && (t.conn.peerFIN <==> s.conn.peerFIN || (takes && p.seqNo == s.buffer.next))
      && t.buffer.next == s.buffer.next + (if takes && p.seqNo == s.buffer.next then 1 else 0)
      && (takes && p.seqNo != s.buffer.next ==> t.conn.pendingFIN && t.conn.pendingFINSeq == p.seqNo)
      && (!takes ==> t.conn.pendingFIN == s.conn.pendingFIN && t.conn.pendingFINSeq == s.conn.pendingFINSeq)
      && t.buffer.ranges == s.buffer.ranges && t.received == s.received
  {
    hide Inv, AcknowledgeFIN, ObserveECN, EstablishConnection, ConsumeFIN, Acknowledge, RepeatedFIN;
    RepeatedFrame(s, p);
    EntryFrame(s, p.ackNo, canEstablish);
    var (entered, ok) := if s.conn.established then (s, true) else EstablishConnection(s, canEstablish);
    EntryFrame(entered, p.ackNo, canEstablish);
    if ok && !s.conn.peerFIN {
      if !s.conn.established {
        EstablishKeeps(s, canEstablish);
      }
      NoLastAck(entered, p.ackNo);
      var acked := AcknowledgeFIN(entered, p.ackNo).0;
      ReplyFrame(acked, p);
      ReplyFrame(ObserveECN(acked, p), p);
      ConsumeFrame(ObserveECN(acked, p), p.seqNo);
    }
  }

  /** The parts that a FIN's handling touches on its way do not move the peer's direction. */
  ghost predicate SameStream(s: State, t: State) {
    && t.buffer == s.buffer && t.received == s.received && t.conn.peerFIN == s.conn.peerFIN
    && t.conn.pendingFIN == s.conn.pendingFIN && t.conn.pendingFINSeq == s.conn.pendingFINSeq
  }

  lemma EntryFrame(s: State, ack: nat, canEstablish: bool)
    ensures SameStream(s, EstablishConnection(s, canEstablish).0) && EstablishConnection(s, canEstablish).1 == canEstablish
    ensures SameStream(s, AcknowledgeFIN(s, ack).0)
  {
  }

  lemma RepeatedFrame(s: State, p: Packet)
    ensures SameStream(s, RepeatedFIN(s, p))
  {
    hide AnswerRepeatedFIN, AcknowledgeFIN;
    EntryFrame(s, p.ackNo, false);
    var marked := ObserveECN(AcknowledgeFIN(s, p.ackNo).0, p);
    AnswerFrame(marked);
  }

  lemma AnswerFrame(s: State)
    ensures SameStream(s, AnswerRepeatedFIN(s))
  {
  }

  lemma ReplyFrame(s: State, p: Packet)
    ensures SameStream(s, ObserveECN(s, p)) && SameStream(s, Acknowledge(s))
    ensures var waiting := s.(conn := s.conn.(pendingFIN := true, pendingFINSeq := p.seqNo)); SameStream(waiting, Acknowledge(waiting))
  {
  }

  lemma ConsumeFrame(s: State, sequence: nat)
    ensures SameStream(s.(buffer := s.buffer.(next := s.buffer.next + 1), conn := s.conn.(pendingFIN := false, peerFIN := true)),
                       ConsumeFIN(s, sequence))
  {
  }

  /** Our FIN cannot be the last to be confirmed while the peer's is missing. */
  lemma NoLastAck(s: State, ack: nat)
    requires Inv(s) && s.phase.Open? && !s.conn.peerFIN
    ensures AcknowledgeFIN(s, ack).1
  {
    hide AllHonest, ReportCurrent, CountsAgree, StreamInv, Armed;
  }

  lemma OpenStates(s: State)
    requires Inv(s) && s.phase.Open? && s.conn.established && !s.conn.peerFIN
    ensures s.conn.tcp.Established? || s.conn.tcp.FinWait1? || s.conn.tcp.FinWait2?
  {
  }

  lemma RepeatedFINKeeps(s: State, p: Packet)
    requires Inv(s) && s.phase.Open? && s.conn.peerFIN
    ensures Inv(RepeatedFIN(s, p)) && Later(s, RepeatedFIN(s, p))
  {
    if p.seqNo == s.conn.peerFINSeq {
      AcknowledgeFINKeeps(s, p.ackNo);
      var (acked, open) := AcknowledgeFIN(s, p.ackNo);
      if open {
        ObserveECNKeeps(acked, p);
        var marked := ObserveECN(acked, p);
        LaterTwice(s, acked, marked);
        RepeatedReplyKeeps(marked);
        LaterTwice(s, marked, RepeatedFIN(s, p));
      }
    }
  }

  lemma RepeatedReplyKeeps(s: State)
    requires Inv(s) && s.phase.Open?
    ensures Inv(AnswerRepeatedFIN(s)) && Later(s, AnswerRepeatedFIN(s))
  {
    AcknowledgeKeeps(s);
    var counted := s.(conn := s.conn.(finRetries := s.conn.finRetries + 1));
    CountKeeps(s, s.conn.finTimeouts);
    if s.conn.tcp.LastAck? {
      assert s.conn.finSent;
      hide Inv, EmitFIN, Acknowledge;
      EmitFINKeeps(counted);
      LaterTwice(s, counted, EmitFIN(counted));
    }
  }

  lemma CountKeeps(s: State, timeouts: nat)
    requires Inv(s) && s.phase.Open?
    ensures var t := s.(conn := s.conn.(finRetries := s.conn.finRetries + 1, finTimeouts := timeouts)); Inv(t) && Later(s, t)
  {
    hide RB.Valid, RB.EndsBy, AllHonest;
    SilentHonest(s, s.(conn := s.conn.(finRetries := s.conn.finRetries + 1, finTimeouts := timeouts)));
  }

  lemma FinTimeoutKeeps(s: State)
    requires Inv(s)
    ensures Inv(FinTimeout(s)) && Later(s, FinTimeout(s))
  {
    FinishKeeps(s, FINRetryLimit);
    LaterSelf(s);
    if s.phase.Open? && s.conn.finSent {
      CountKeeps(s, s.conn.finTimeouts + 1);
      var counted := s.(conn := s.conn.(finTimeouts := s.conn.finTimeouts + 1, finRetries := s.conn.finRetries + 1));
      hide Inv, EmitFIN, Finish;
      EmitFINKeeps(counted);
      LaterTwice(s, counted, EmitFIN(counted));
    }
  }

  lemma WaitExpiredKeeps(s: State)
    requires Inv(s)
    ensures Inv(WaitExpired(s)) && Later(s, WaitExpired(s))
  {
    FinishKeeps(s, WaitTimeout);
    LaterSelf(s);
    if s.phase.Open? && s.conn.tcp.TimeWait? {
      FinishKeeps(s, Graceful);
    }
  }

  lemma TimersKeep(s: State)
    requires Inv(s)
    ensures Inv(FinTimeout(s)) && Later(s, FinTimeout(s))
    ensures Inv(WaitExpired(s)) && Later(s, WaitExpired(s))
    ensures Inv(DelayExpired(s)) && Later(s, DelayExpired(s))
  {
    hide Inv, Acknowledge;
    FinTimeoutKeeps(s);
    WaitExpiredKeeps(s);
    AcknowledgeKeeps(s);
    LaterSelf(s);
  }

  lemma HandleFINKeeps(s: State, p: Packet, canEstablish: bool)
    requires Inv(s) && s.phase.Open? && p.flags.fin && !p.flags.syn && SequenceEnd(p).Some?
    ensures Inv(HandleFIN(s, p, canEstablish)) && Later(s, HandleFIN(s, p, canEstablish))
  {
    hide Inv, Later, RepeatedFIN, ConsumeFIN, Acknowledge, EstablishConnection, AcknowledgeFIN, ObserveECN;
    LaterSelf(s);
    if !(p.size != 0 || p.flags.psh) {
      if s.conn.peerFIN {
        RepeatedFINKeeps(s, p);
      } else if FINFits(s, p) {
        var (entered, ok) := if s.conn.established then (s, true) else EstablishConnection(s, canEstablish);
        if !s.conn.established {
          EstablishKeeps(s, canEstablish);
        }
        if ok {
          EnteredFIN(s, entered, p);
          AcknowledgeFINKeeps(entered, p.ackNo);
          var (acked, open) := AcknowledgeFIN(entered, p.ackNo);
          LaterTwice(s, entered, acked);
          if open {
            ObserveECNKeeps(acked, p);
            var marked := ObserveECN(acked, p);
            LaterTwice(s, acked, marked);
            FINAccepted(marked, p);
            if p.seqNo != s.buffer.next {
              LaterTwice(s, marked, Acknowledge(marked.(conn := marked.conn.(pendingFIN := true, pendingFINSeq := p.seqNo))));
            } else {
              LaterTwice(s, marked, ConsumeFIN(marked, p.seqNo));
            }
          }
        }
      }
    }
  }

  lemma EnteredFIN(s: State, t: State, p: Packet)
    requires Inv(s) && Inv(t) && !s.conn.peerFIN && FINFits(s, p) && p.flags.fin && p.size == 0 && SequenceEnd(p).Some?
    requires t == s || (t.buffer == s.buffer && t.conn.established && !s.conn.established)
    requires t == s || (t.conn.pendingFIN == s.conn.pendingFIN && t.conn.peerFIN == s.conn.peerFIN)
    ensures !t.conn.peerFIN && FINFits(t, p) && p.seqNo < MAX_UINT64
  {
    hide AllHonest, RB.Valid;
  }

  /** A FIN that fits either waits for the gap before it or is consumed now. */
  lemma FINAccepted(s: State, p: Packet)
    requires Inv(s) && s.phase.Open? && s.conn.established && !s.conn.peerFIN
    requires FINFits(s, p) && p.seqNo < MAX_UINT64
    ensures p.seqNo == s.buffer.next ==> Inv(ConsumeFIN(s, p.seqNo)) && Later(s, ConsumeFIN(s, p.seqNo))
    ensures p.seqNo != s.buffer.next ==>
      var t := Acknowledge(s.(conn := s.conn.(pendingFIN := true, pendingFINSeq := p.seqNo)));
      Inv(t) && Later(s, t)
  {
    hide AllHonest;
    if p.seqNo == s.buffer.next {
      ConsumeKeeps(s, p.seqNo);
    } else {
      var waiting := s.(conn := s.conn.(pendingFIN := true, pendingFINSeq := p.seqNo));
      SilentHonest(s, waiting);
      assert Inv(waiting);
      AcknowledgeKeeps(waiting);
      LaterTwice(s, waiting, Acknowledge(waiting));
    }
  }

  // ---------- Data ----------

  lemma TakeDataKeeps(s: State, p: Packet, end: nat)
    requires Inv(s) && s.phase.Open? && s.conn.established && !s.conn.peerFIN
    ensures var (t, added) := TakeData(s, p, end);
      && Inv(t) && Later(s, t) && t.phase == s.phase && t.conn == s.conn
  {
    var bound := if s.conn.pendingFIN then Min(end, s.conn.pendingFINSeq) else end;
    RB.AcceptKeepsValid(s.buffer, p.seqNo, bound);
    if s.conn.pendingFIN {
      RB.AcceptBound(s.buffer, p.seqNo, bound, s.conn.pendingFINSeq);
    }
    var (t, added) := TakeData(s, p, end);
    if s.feedback.sack {
      SR.ReportTruthful(t.buffer.next, t.buffer.ranges, s.feedback.recent, p.seqNo, bound);
    }
    SilentHonest(s, t);
    hide AllHonest, RB.Valid, RB.EndsBy;
  }

  lemma HandleDataKeeps(s: State, p: Packet, end: nat)
    requires Inv(s) && s.phase.Open? && s.conn.established && !s.conn.peerFIN
    ensures Inv(HandleData(s, p, end)) && Later(s, HandleData(s, p, end))
  {
    var inWindow := RB.OverlapsWindow(s.buffer, p.seqNo, end);
    LaterSelf(s);
    AcknowledgeFINKeeps(s, p.ackNo);
    var (acked, open) := if inWindow then AcknowledgeFIN(s, p.ackNo) else (s, true);
    if open {
      hide Inv, Later, AcknowledgeFIN, ObserveECN, TakeData, AcknowledgeData;
      ObserveECNKeeps(acked, p);
      var marked := if inWindow then ObserveECN(acked, p) else acked;
      LaterTwice(s, acked, marked);
      TakeDataKeeps(marked, p, end);
      var (taken, added) := TakeData(marked, p, end);
      LaterTwice(s, marked, taken);
      if taken.conn.pendingFIN && taken.buffer.next == taken.conn.pendingFINSeq {
        RipeFIN(taken);
        ConsumeKeeps(taken, taken.conn.pendingFINSeq);
        LaterTwice(s, taken, ConsumeFIN(taken, taken.conn.pendingFINSeq));
      } else {
        AcknowledgeDataKeeps(taken, true);
        AcknowledgeDataKeeps(taken, false);
        LaterTwice(s, taken, AcknowledgeData(taken, true));
        LaterTwice(s, taken, AcknowledgeData(taken, false));
      }
    }
  }

  lemma LaterSelf(s: State)
    ensures Later(s, s)
  {
  }

  lemma RipeFIN(s: State)
    requires Inv(s) && s.conn.pendingFIN && s.buffer.next == s.conn.pendingFINSeq
    ensures s.buffer.next < MAX_UINT64 && RB.EndsBy(s.buffer.ranges, s.conn.pendingFINSeq) && !s.conn.peerFIN
  {
    hide AllHonest;
  }

  // ---------- Packets, steps ----------

  lemma HandleSegmentKeeps(s: State, p: Packet, end: nat)
    requires Inv(s) && s.phase.Open? && s.conn.established
    ensures Inv(HandleSegment(s, p, end)) && Later(s, HandleSegment(s, p, end))
  {
    hide Inv, Later, AcknowledgeFIN, ObserveECN, HandleData;
    LaterSelf(s);
    if p.size == 0 {
      AcknowledgeFINKeeps(s, p.ackNo);
      var (acked, open) := AcknowledgeFIN(s, p.ackNo);
      ObserveECNKeeps(acked, p);
      LaterTwice(s, acked, ObserveECN(acked, p));
    } else if !s.conn.peerFIN {
      HandleDataKeeps(s, p, end);
    }
  }

  lemma HandlePacketKeeps(s: State, p: Packet, a: Admission)
    requires Inv(s)
    ensures Inv(HandlePacket(s, p, a)) && Later(s, HandlePacket(s, p, a))
  {
    hide Inv, Later, HandleReset, HandleSYN, HandleFIN, HandleSegment, EstablishConnection, ValidSACKOptions;
    LaterSelf(s);
    HandleResetKeeps(s, p);
    if SequenceEnd(p).Some? {
      var end := SequenceEnd(p).value;
      if p.flags.syn {
        if !p.flags.fin { HandleSYNKeeps(s, p, end, a.canOpen); }
      } else if s.phase.Open? {
        if p.flags.fin {
          HandleFINKeeps(s, p, a.canEstablish);
        } else {
          if !s.conn.established { EstablishKeeps(s, a.canEstablish); }
          var (entered, ok) := if s.conn.established then (s, true) else Enter(s, p, end, a.canEstablish);
          if ok {
            HandleSegmentKeeps(entered, p, end);
            LaterTwice(s, entered, HandleSegment(entered, p, end));
          }
        }
      }
    }
  }

  lemma StepKeeps(s: State, i: Input)
    requires Inv(s)
    ensures Inv(Step(s, i)) && Later(s, Step(s, i))
  {
    hide Inv, Later, CloseConnection, AbortConnection, Finish, DelayExpired, FinTimeout, WaitExpired, HandlePacket;
    TimersKeep(s);
    CloseKeeps(s);
    AbortKeeps(s);
    FinishKeeps(s, Aborted);
    if i.Arrives? {
      HandlePacketKeeps(s, i.packet, i.admission);
    }
  }

  lemma InitInv(config: Config)
    requires ValidConfig(config)
    ensures Inv(Init(config))
  {
  }

  lemma {:induction false} RunInv(config: Config, inputs: seq<Input>)
    requires ValidConfig(config)
    ensures Inv(Run(config, inputs))
    decreases |inputs|
  {
    if inputs == [] {
      InitInv(config);
    } else {
      hide Inv, Step, Init;
      RunInv(config, inputs[..|inputs| - 1]);
      StepKeeps(Run(config, inputs[..|inputs| - 1]), inputs[|inputs| - 1]);
    }
  }

  /** Every payload position the receiver holds is counted once, whatever arrived; a graceful end
      had both FINs; and one flow never takes more than one slot. */
  lemma RunAccounting(config: Config, inputs: seq<Input>)
    requires ValidConfig(config)
    ensures var s := Run(config, inputs);
      && (!s.phase.Listening? ==>
            s.received == s.buffer.next - s.conn.peerInitial - 1 - (if s.conn.peerFIN then 1 else 0) + s.buffer.buffered)
      && (s.conn.outcome.Graceful? ==> s.conn.finSent && s.conn.finAcked && s.conn.peerFIN)
      && s.active + s.halfOpen == (if s.phase.Open? then 1 else 0)
  {
    RunInv(config, inputs);
    hide Run, AllHonest, ReportCurrent, RB.Valid;
  }

  /** Received data that waits for its ACK, a FIN that waits for its own, and both last waits
      have an armed timer in every reachable state; its firing reports the current state, repeats
      the FIN, or releases the connection. */
  lemma NeverStuck(config: Config, inputs: seq<Input>)
    requires ValidConfig(config)
    ensures var s := Run(config, inputs);
      && (s.feedback.waitingSegments > 0 ==>
            s.timers.ack && Step(s, DelayFires).out == s.out + [Reply(s, ACK_FLAGS, s.conn.next)]
            && Step(s, DelayFires).feedback.waitingSegments == 0)
      && (s.phase.Open? && s.conn.finSent && !s.conn.finAcked ==>
            var t := Step(s, FinTimerFires);
            s.timers.fin && if s.conn.finTimeouts < s.config.maxFINRetries
                            then t.out == s.out + [Reply(s, FIN_FLAGS, s.conn.finSeq)] && t.timers.fin
                            else t.phase.Released?)
      && (s.phase.Open? && (s.conn.tcp.FinWait2? || s.conn.tcp.TimeWait?) ==>
            s.timers.wait && Step(s, WaitTimerFires).phase.Released?)
  {
    RunInv(config, inputs);
    hide Run, AllHonest, ReportCurrent, StreamInv, ClosingAgrees, Reply, RB.Valid;
  }
}
